# dqd-enhanced report core, modelled in Dafny

dqd-enhanced reads Dremio diagnostic captures and turns them into HTML reports.
This project models the report core. Each item below is modelled on the values
it computes:

- **TopExec** parses a `top -H` capture. For each line it checks the markers
  ("Threads", "MiB Mem ", "MiB Swap:", "top - ", "%Cpu(s):", "PID USER"),
  collects CPU, memory, swap, thread-count and time samples, keeps the parse
  errors, and groups the process-table rows per (pid, command) thread key. The
  keys are then ordered by summed CPU usage.
- **IOStatReporter** computes the summary statistics of an iostat capture:
  threshold percentages, per-device queue shares and the numbered
  recommendations.
- **ProfileJSONSimplified** is `singleProfile`. It summarises a profile.json
  into a record with one operator row per operator, sorted by total duration,
  longest first.
- **SingleProfileJsonHtmlReport** is the data side of `getText`: the phase
  threads, the four index-aligned plot arrays, the operators of the duration
  and records plots, and the section and title lists that become the
  navigation links.
- **QueriesJsonHtmlReport** decides which page the queries.json report shows
  and builds the files-searched table and the summary table.
- **HtmlTableBuilder** is `generateTable`, the sortable and filterable table
  that every report uses.

## How it is modelled

- Code that works step by step is a `method` with loops and invariants, proved
  equal to a specification function. The specification function carries the
  properties as lemmas. Examples:
  - the `exec` read loop is the class `TopExec.TopCapture`, whose fields are
    the lists and the map;
  - `generateTable` is `HtmlTableBuilder.GenerateTable`;
  - `singleProfile` is `ProfileSimplified.SingleProfile`;
  - the array fills in `getText` are methods over arrays.
- A `StringBuilder` is the sequence of its append calls (`seq<Chunk>`).
- Exceptions that escape are `Err` values. These include a null dereference,
  an index out of range and a failed number parse.
- Java `null` is `Option`.
- Java's `String.split`, `trim`, `Integer.parseInt`, `Float.parseFloat`,
  `LocalTime.parse` and `String.hashCode` are written out in `java_text.dfy`
  and `top_exec.dfy`; the hash runs over UTF-16 code units, as Java's does. The stable descending sort and `String.compareTo` order
  are written out in `sorting.dfy`.

Where the code and the documented design differ, the model follows the code:

- `singleProfile` does not null-check the minor-fragment list, the operator
  elements or the input-profile elements. Such a profile throws a
  NullPointerException, modelled as `Err(NullPointer)`.
- A negative query-state ordinal passes the `id < values().length` test and
  then throws.
- `getPhaseThreads` skips null phases and phases without a thread list, but
  dereferences null threads.
- In the single-profile report, the operator loop reads the profile's
  operator-type metrics map once per operator. A null map therefore throws as
  soon as one operator exists.
- The navigation-link loop indexes the section list by the title position. It
  throws when the summary has fewer sections than titles.
- In the `top` process table only a zero-length line ends the table. A line of
  blanks is taken as a process row, and reading its token 8 aborts the parse.

## Model

| member | source | states |
|---|---|---|
| TopExec.Wrap32 | src/main/java/com/dremio/support/diagnostics/top/TopExec.java:60-63 | the result is a 32-bit int congruent to its argument modulo 2^32 (Java int overflow) |
| TopExec.StringHash | src/main/java/com/dremio/support/diagnostics/top/TopExec.java:60-63 | String.hashCode, the hash loop over the UTF-16 code units, stays within the int range |
| TopExec.CharUnits | src/main/java/com/dremio/support/diagnostics/top/TopExec.java:60-63 | a character is one code unit below U+10000, otherwise a high and a low surrogate that decode back to it |
| TopExec.StringHashPolynomial | src/main/java/com/dremio/support/diagnostics/top/TopExec.java:60-63 | String.hashCode is the sum of unit i times 31^(n-1-i), wrapped to a 32-bit int |
| TopExec.Utf16Bmp | src/main/java/com/dremio/support/diagnostics/top/TopExec.java:60-63 | a string without supplementary characters has one code unit per character, equal to it |
| TopExec.KeyHash | src/main/java/com/dremio/support/diagnostics/top/TopExec.java:60-63 | Objects.hash(pid, command) stays within the int range |
| TopExec.KeyHashPolynomial | src/main/java/com/dremio/support/diagnostics/top/TopExec.java:60-63 | Objects.hash(pid, command) is 961 + 31 * pid's hash polynomial + command's hash polynomial, wrapped to an int |
| TopExec.KeyEqualsIff | src/main/java/com/dremio/support/diagnostics/top/TopExec.java:52-58 | two thread keys are equal exactly when pid and command both match |
| TopExec.KeyHashConsistent | src/main/java/com/dremio/support/diagnostics/top/TopExec.java:52-63 | equal keys have equal hash codes |
| TopExec.KeyHashCollision | src/main/java/com/dremio/support/diagnostics/top/TopExec.java:52-63 | pids "Aa" and "BB" with the same command collide in hashCode yet are different keys |
| JavaText.ParseLocalTimeForms | src/main/java/com/dremio/support/diagnostics/top/TopExec.java:163 | LocalTime.parse reads HH:mm, HH:mm:ss and HH:mm:ss. back to the same time and refuses a one-digit hour |
| TopExec.ScanAvail | src/main/java/com/dremio/support/diagnostics/top/TopExec.java:141-147 | the avail loop computes the avail scan from the "0.0" default, including the tokens[-1] failure |
| TopExec.ReadSwapStats | src/main/java/com/dremio/support/diagnostics/top/TopExec.java:124-158 | the swap-line reader yields exactly the swap-line parse (sample or failure) |
| TopExec.BuildCommand | src/main/java/com/dremio/support/diagnostics/top/TopExec.java:194-199 | the command builder holds every token from the start index on (11 in the row reader), each followed by one blank |
| TopExec.ReadProcessRow | src/main/java/com/dremio/support/diagnostics/top/TopExec.java:190-202 | the process-row reader yields exactly the process-row parse |
| TopExec.TopCapture.constructor | src/main/java/com/dremio/support/diagnostics/top/TopExec.java:75-83 | all sample lists and the thread map start empty, outside the table |
| TopExec.TopCapture.ParseLine | src/main/java/com/dremio/support/diagnostics/top/TopExec.java:85-214 | one loop iteration moves the capture to the specified next state, or reports the exception that ends the parse |
| TopExec.TopCapture.CountThreads | src/main/java/com/dremio/support/diagnostics/top/TopExec.java:86-105 | a Threads line adds one ThreadStats sample or one "Thread Stats" parse error; nothing else changes |
| TopExec.TopCapture.Dispatch | src/main/java/com/dremio/support/diagnostics/top/TopExec.java:106-214 | the remaining branches, tried in source order, give the specified state or failure |
| TopExec.TopCapture.AddMem | src/main/java/com/dremio/support/diagnostics/top/TopExec.java:106-123 | a memory line adds one sample or one "Memory" parse error |
| TopExec.TopCapture.AddSwap | src/main/java/com/dremio/support/diagnostics/top/TopExec.java:124-159 | a swap line adds one sample or one "Swap" parse error |
| TopExec.TopCapture.AddTime | src/main/java/com/dremio/support/diagnostics/top/TopExec.java:160-166 | a "top - " line adds its time, or fails when the time does not parse |
| TopExec.TopCapture.AddCpu | src/main/java/com/dremio/support/diagnostics/top/TopExec.java:167-178 | a %Cpu(s) line adds its sample, or fails |
| TopExec.TopCapture.AddRow | src/main/java/com/dremio/support/diagnostics/top/TopExec.java:188-213 | a process row is parsed and filed under its key, or the parse fails |
| TopExec.TopCapture.Record | src/main/java/com/dremio/support/diagnostics/top/TopExec.java:203-213 | the row goes at the end of its key's list (created on first use); nothing else changes |
| TopExec.Exec | src/main/java/com/dremio/support/diagnostics/top/TopExec.java:83-215 | the read loop over all lines computes the run of the step function from the empty capture |
| TopExec.Filter | src/main/java/com/dremio/support/diagnostics/top/TopExec.java:203-213 | selecting one key's rows keeps at most all rows, and only rows with that key |
| TopExec.FilterAppend | src/main/java/com/dremio/support/diagnostics/top/TopExec.java:203-213 | selecting one key's rows distributes over concatenation, so input order is kept |
| TopExec.RowTotalRemove | src/main/java/com/dremio/support/diagnostics/top/TopExec.java:203-213 | the row total of the map does not depend on the order in which keys are taken |
| TopExec.AddUsageLookup | src/main/java/com/dremio/support/diagnostics/top/TopExec.java:205-213 | adding a row appends it to its own key's list and to no other |
| TopExec.AddUsageTotal | src/main/java/com/dremio/support/diagnostics/top/TopExec.java:205-213 | adding a row grows the row total by one |
| TopExec.AddUsageGrouped | src/main/java/com/dremio/support/diagnostics/top/TopExec.java:203-213 | adding a row keeps every list non-empty and holding only its own key's rows |
| TopExec.StepTable | src/main/java/com/dremio/support/diagnostics/top/TopExec.java:179-214 | a line moves the in-table flag as the markers say, and only a process row changes the map |
| TopExec.RunGroups | src/main/java/com/dremio/support/diagnostics/top/TopExec.java:85-214 | a run appends every parsed process row, in input order, to its own key's list |
| TopExec.RunTotal | src/main/java/com/dremio/support/diagnostics/top/TopExec.java:85-214 | a run's lists hold as many rows as were parsed, and stay grouped |
| TopExec.ExecGroups | src/main/java/com/dremio/support/diagnostics/top/TopExec.java:83-214 | after exec each key's list is exactly its parsed rows in input order; the lists together hold every row |
| TopExec.RecycledPidKeptApart | src/main/java/com/dremio/support/diagnostics/top/TopExec.java:203-213 | rows with the same pid but different commands never share a list |
| TopExec.OrderedKeysSorted | src/main/java/com/dremio/support/diagnostics/top/TopExec.java:498-509 | the ordered keys are a permutation of the map's entries, by non-increasing summed CPU usage |
| TopExec.OrderedKeysHaveSamples | src/main/java/com/dremio/support/diagnostics/top/TopExec.java:510-515 | every ordered key has samples, so the empty-list skip never fires |
| TopExec.MarkersExclusive | src/main/java/com/dremio/support/diagnostics/top/TopExec.java:86-178 | a line carries at most one of the prefix markers |
| TopExec.ThreadsLineFallsThrough | src/main/java/com/dremio/support/diagnostics/top/TopExec.java:86-183 | a Threads line, after its own branch, reaches only the table branches |
| TopExec.ThreadsLineRecovered | src/main/java/com/dremio/support/diagnostics/top/TopExec.java:86-104 | outside the table a Threads line never aborts: one sample or one "Thread Stats" error, nothing else changes |
| TopExec.MemLineRecovered | src/main/java/com/dremio/support/diagnostics/top/TopExec.java:106-123 | a memory line never aborts: one sample or one "Memory" error, nothing else changes |
| TopExec.SwapLineRecovered | src/main/java/com/dremio/support/diagnostics/top/TopExec.java:124-159 | a swap line never aborts: one sample or one "Swap" error, nothing else changes |
| TopExec.AbortsExactly | src/main/java/com/dremio/support/diagnostics/top/TopExec.java:160-193 | a line aborts the parse exactly when it is a bad time line, a bad %Cpu line or a bad process row |
| TopExec.BlankLineShape | src/main/java/com/dremio/support/diagnostics/top/TopExec.java:183-190 | a line of blanks carries no marker and splits into the one token "" |
| TopExec.BlankLineInTableAborts | src/main/java/com/dremio/support/diagnostics/top/TopExec.java:183-193 | inside the table a line of blanks aborts with index 8 out of bounds for length 1 |
| TopExec.AvailDefault | src/main/java/com/dremio/support/diagnostics/top/TopExec.java:141-147 | with no "avail" token, availMem keeps its default |
| TopExec.AvailLastWins | src/main/java/com/dremio/support/diagnostics/top/TopExec.java:141-147 | the token before the last "avail" is the one kept |
| TopExec.AvailFirstFails | src/main/java/com/dremio/support/diagnostics/top/TopExec.java:141-147 | an "avail" first token reads tokens[-1] and fails |
| TopExec.CpuLineFields | src/main/java/com/dremio/support/diagnostics/top/TopExec.java:167-177 | a %Cpu line parses exactly when its value tokens parse; tokens 1, 5, 3, 9, 15 and 7 become user, nice, system, iowait, steal and idle |
| TopExec.SpaceTerminatedJoin | src/main/java/com/dremio/support/diagnostics/top/TopExec.java:194-199 | the command builder's text is the tokens joined by single blanks, plus one trailing blank |
| TopExec.CommandOfWords | src/main/java/com/dremio/support/diagnostics/top/TopExec.java:194-201 | trimming the built command leaves the words joined by single blanks |
| TopExec.ProcessRowOfWords | src/main/java/com/dremio/support/diagnostics/top/TopExec.java:190-202 | a row of blank-separated words parses exactly when word 8 is a float; pid is word 0, cpu is word 8, the command is words 11 onward |
| TopExec.CountPartField | src/main/java/com/dremio/support/diagnostics/top/TopExec.java:93-96 | "<n> <word>" is one field of the comma split, and its count reads back as n |
| TopExec.HeadPartField | src/main/java/com/dremio/support/diagnostics/top/TopExec.java:90-92 | the head part "Threads: <n> total" gives n after the colon |
| TopExec.ThreadStatsLine | src/main/java/com/dremio/support/diagnostics/top/TopExec.java:86-101 | a thread-count line with any comma-and-blank separators reads back its five counts |
| IOStatReporter.Percentage | src/main/java/com/dremio/support/diagnostics/iostat/IOStatReporter.java:349-369 | the share is 0 when the guard counter is not positive; otherwise count/records*100 |
| IOStatReporter.PercentageBounds | src/main/java/com/dremio/support/diagnostics/iostat/IOStatReporter.java:349-369 | a count between 1 and the record count gives a share in (0, 100] |
| IOStatReporter.SummaryStats | src/main/java/com/dremio/support/diagnostics/iostat/IOStatReporter.java:347-393 | the summary's counts and percentages, the sorted device names and one gated queue share per device |
| IOStatReporter.KeyList | src/main/java/com/dremio/support/diagnostics/iostat/IOStatReporter.java:370-373 | the key list holds each device of the queue map exactly once |
| IOStatReporter.QueuePercentages | src/main/java/com/dremio/support/diagnostics/iostat/IOStatReporter.java:375-385 | one entry per listed device, its queue share gated by ioBottleneckCount |
| IOStatReporter.QueueGatedByBottleneck | src/main/java/com/dremio/support/diagnostics/iostat/IOStatReporter.java:379-383 | with no bottleneck every device shows 0%, however often it was queued |
| IOStatReporter.SummaryTable | src/main/java/com/dremio/support/diagnostics/iostat/IOStatReporter.java:395-426 | four fixed rows, then one row per device in name order |
| IOStatReporter.ProblemDisks | src/main/java/com/dremio/support/diagnostics/iostat/IOStatReporter.java:434-440 | the disks over 10% in name order; fails on a device without a share |
| IOStatReporter.ProblemDisksSorted | src/main/java/com/dremio/support/diagnostics/iostat/IOStatReporter.java:434-440 | sorted names give sorted problem disks |
| IOStatReporter.FindProblemDisks | src/main/java/com/dremio/support/diagnostics/iostat/IOStatReporter.java:434-440 | the collecting loop computes exactly the problem disks |
| IOStatReporter.Advices | src/main/java/com/dremio/support/diagnostics/iostat/IOStatReporter.java:429-478 | iowait advice first, then the two CPU rules, each present only when its threshold is passed |
| IOStatReporter.Recommendations | src/main/java/com/dremio/support/diagnostics/iostat/IOStatReporter.java:429-478 | one row per advice, numbered 1, 2, ... in order |
| IOStatReporter.IOAdviceIff | src/main/java/com/dremio/support/diagnostics/iostat/IOStatReporter.java:433-457 | the iowait advice is present exactly when iowait over 5 exceeds 10%, and then it leads |
| IOStatReporter.IOAdviceNamesProblemDisks | src/main/java/com/dremio/support/diagnostics/iostat/IOStatReporter.java:441-456 | the iowait advice names exactly the problem disks, or gives the network message when there are none |
| IOStatReporter.AdviceCount | src/main/java/com/dremio/support/diagnostics/iostat/IOStatReporter.java:432-475 | the number of recommendations is the number of rules that fire |
| IOStatReporter.AdvicesDefined | src/main/java/com/dremio/support/diagnostics/iostat/IOStatReporter.java:435-437 | when every device has a share, the recommendations never fail |
| ProfileSimplified.EnumLookup | src/main/java/com/dremio/support/diagnostics/simple/ProfileJSONSimplified.java:187-191 | an ordinal past the end gives null; a negative ordinal throws index out of bounds |
| ProfileSimplified.InputTotals | src/main/java/com/dremio/support/diagnostics/simple/ProfileJSONSimplified.java:169-178 | the input counters are summed; a null input profile throws |
| ProfileSimplified.OperatorRowFields | src/main/java/com/dremio/support/diagnostics/simple/ProfileJSONSimplified.java:161-207 | a row carries its phase, thread, host, summed counters, the three durations and their sum, and the type when in range |
| ProfileSimplified.OperatorRowFails | src/main/java/com/dremio/support/diagnostics/simple/ProfileJSONSimplified.java:167-191 | a row fails exactly for a null operator, a null input profile or a negative type ordinal |
| ProfileSimplified.OperatorRows | src/main/java/com/dremio/support/diagnostics/simple/ProfileJSONSimplified.java:167-209 | one row per operator, in operator order |
| ProfileSimplified.PhaseRows | src/main/java/com/dremio/support/diagnostics/simple/ProfileJSONSimplified.java:157-211 | a phase yields one row per operator of its non-null threads with non-null operator lists |
| ProfileSimplified.MinorRowsMembers | src/main/java/com/dremio/support/diagnostics/simple/ProfileJSONSimplified.java:158-209 | a thread's rows are exactly the rows of its operators; a null thread or operator list gives none |
| ProfileSimplified.PhaseRowsMembers | src/main/java/com/dremio/support/diagnostics/simple/ProfileJSONSimplified.java:157-211 | a row is in a phase's rows exactly when it is the row of an operator of a non-null thread of that phase |
| ProfileSimplified.PhaseRowsAppend | src/main/java/com/dremio/support/diagnostics/simple/ProfileJSONSimplified.java:157-211 | thread order: the rows of a split thread list are the first part's rows followed by the rest's, and the first failure wins |
| ProfileSimplified.Walk | src/main/java/com/dremio/support/diagnostics/simple/ProfileJSONSimplified.java:153-213 | the phase count is the number of non-null phases and there is one row per operator of their threads |
| ProfileSimplified.WalkMembers | src/main/java/com/dremio/support/diagnostics/simple/ProfileJSONSimplified.java:153-213 | a row is collected exactly when it is the row of an operator of a non-null thread of a non-null phase, built with that phase's id and that thread's id and host |
| ProfileSimplified.WalkAppend | src/main/java/com/dremio/support/diagnostics/simple/ProfileJSONSimplified.java:153-213 | phase order: the walk of a split phase list is the first part's walk followed by the rest's, and the first failure wins |
| ProfileSimplified.SummarizeNull | src/main/java/com/dremio/support/diagnostics/simple/ProfileJSONSimplified.java:124-135 | a null profile gives the default summary without findings |
| ProfileSimplified.SummarizeWithoutFragments | src/main/java/com/dremio/support/diagnostics/simple/ProfileJSONSimplified.java:136-152 | without a fragment list only the findings are kept |
| ProfileSimplified.SummarizeFields | src/main/java/com/dremio/support/diagnostics/simple/ProfileJSONSimplified.java:140-156 | start and end are copied; user and version replace the defaults only when non-empty; the phase name is set while the state is in range; the phase and operator totals are counted |
| ProfileSimplified.SummarizeNegativeState | src/main/java/com/dremio/support/diagnostics/simple/ProfileJSONSimplified.java:146-147 | a negative state ordinal aborts before any phase is read |
| ProfileSimplified.OperatorRowsOrdered | src/main/java/com/dremio/support/diagnostics/simple/ProfileJSONSimplified.java:215-226 | the operator rows are a permutation of the collected rows, longest first, with ties in collection order |
| ProfileSimplified.SumInputs | src/main/java/com/dremio/support/diagnostics/simple/ProfileJSONSimplified.java:169-178 | the input loop computes the input totals |
| ProfileSimplified.ReadOperatorRow | src/main/java/com/dremio/support/diagnostics/simple/ProfileJSONSimplified.java:167-208 | the operator loop body builds exactly the specified row or failure |
| ProfileSimplified.CollectOperatorRows | src/main/java/com/dremio/support/diagnostics/simple/ProfileJSONSimplified.java:167-209 | the operator loop computes the thread's rows |
| ProfileSimplified.CollectPhaseRows | src/main/java/com/dremio/support/diagnostics/simple/ProfileJSONSimplified.java:157-211 | the thread loop computes the phase's rows |
| ProfileSimplified.WalkFragments | src/main/java/com/dremio/support/diagnostics/simple/ProfileJSONSimplified.java:153-213 | the phase loop computes the walk |
| ProfileSimplified.SingleProfile | src/main/java/com/dremio/support/diagnostics/simple/ProfileJSONSimplified.java:124-227 | singleProfile computes exactly the specified summary, failure included |
| ProfileSimplified.CompareProfiles | src/main/java/com/dremio/support/diagnostics/simple/ProfileJSONSimplified.java:229-233 | both profiles are summarised independently; the first failure aborts |
| ProfileSimplified.ShownRows | src/main/java/com/dremio/support/diagnostics/simple/ProfileJSONSimplified.java:407-410 | a positive limit shows the first limit rows, otherwise all rows |
| ProfileSimplified.PhaseColorsDistinct | src/main/java/com/dremio/support/diagnostics/simple/ProfileJSONSimplified.java:478-486 | the four known phases get four different colours, none grey; any other phase is grey |
| SingleProfileReport.PhaseThreadOf | src/main/java/com/dremio/support/diagnostics/profilejson/singlefile/SingleProfileJsonHtmlReport.java:632-647 | ids and durations are copied; process time is the wall time; the bar ends at the end time and spans the run duration |
| SingleProfileReport.GetPhaseThread | src/main/java/com/dremio/support/diagnostics/profilejson/singlefile/SingleProfileJsonHtmlReport.java:632-647 | the setter sequence yields exactly that phase thread |
| SingleProfileReport.MinorThreads | src/main/java/com/dremio/support/diagnostics/profilejson/singlefile/SingleProfileJsonHtmlReport.java:621-625 | one phase thread per thread, in order; a null thread throws |
| SingleProfileReport.FragmentThreadsShape | src/main/java/com/dremio/support/diagnostics/profilejson/singlefile/SingleProfileJsonHtmlReport.java:615-630 | the walk succeeds exactly when no walked phase has a null thread, and then yields one entry per thread |
| SingleProfileReport.FragmentThreadsMembers | src/main/java/com/dremio/support/diagnostics/profilejson/singlefile/SingleProfileJsonHtmlReport.java:615-630 | an entry is in the result exactly when it is made from a thread of a walked phase |
| SingleProfileReport.FragmentThreadsAppend | src/main/java/com/dremio/support/diagnostics/profilejson/singlefile/SingleProfileJsonHtmlReport.java:618-627 | the threads come phase by phase, in order |
| SingleProfileReport.AppendMinorThreads | src/main/java/com/dremio/support/diagnostics/profilejson/singlefile/SingleProfileJsonHtmlReport.java:621-625 | the inner loop appends exactly the phase's threads |
| SingleProfileReport.GetPhaseThreads | src/main/java/com/dremio/support/diagnostics/profilejson/singlefile/SingleProfileJsonHtmlReport.java:615-630 | the loop computes exactly the specified thread list, or its failure |
| SingleProfileReport.FillPhaseArrays | src/main/java/com/dremio/support/diagnostics/profilejson/singlefile/SingleProfileJsonHtmlReport.java:68-92 | the four arrays hold start, end, phase label and process time of each thread, by index |
| SingleProfileReport.PhaseArraysAligned | src/main/java/com/dremio/support/diagnostics/profilejson/singlefile/SingleProfileJsonHtmlReport.java:74-92 | array slot i belongs to a thread of a walked phase; its bar spans the run duration and ends at the end time |
| SingleProfileReport.PhaseNameReadsBack | src/main/java/com/dremio/support/diagnostics/profilejson/singlefile/SingleProfileJsonHtmlReport.java:78-78 | the "%02d" phase labels read back as the phase ids |
| SingleProfileReport.ThreadOperators | src/main/java/com/dremio/support/diagnostics/profilejson/singlefile/SingleProfileJsonHtmlReport.java:153-160 | one operator per operator profile; a null metrics map throws once there is an operator |
| SingleProfileReport.PhaseOperatorsShape | src/main/java/com/dremio/support/diagnostics/profilejson/singlefile/SingleProfileJsonHtmlReport.java:150-162 | a phase's operators: one per operator of each non-null thread, failing only on a needed null map |
| SingleProfileReport.FragmentOperatorsShape | src/main/java/com/dremio/support/diagnostics/profilejson/singlefile/SingleProfileJsonHtmlReport.java:146-165 | the loop nest succeeds exactly when the map is non-null or no operator exists, with one operator per operator |
| SingleProfileReport.OperatorsMatchSummary | src/main/java/com/dremio/support/diagnostics/profilejson/singlefile/SingleProfileJsonHtmlReport.java:146-165 | the plots show one operator per row of the summary's operator table |
| SingleProfileReport.FragmentOperatorsPhases | src/main/java/com/dremio/support/diagnostics/profilejson/singlefile/SingleProfileJsonHtmlReport.java:146-165 | each operator carries its phase and thread ids and the map's metric definitions |
| SingleProfileReport.PhaseOperatorsPhase | src/main/java/com/dremio/support/diagnostics/profilejson/singlefile/SingleProfileJsonHtmlReport.java:150-162 | each operator of a phase carries that phase's id |
| SingleProfileReport.AppendThreadOperators | src/main/java/com/dremio/support/diagnostics/profilejson/singlefile/SingleProfileJsonHtmlReport.java:153-160 | the innermost loop appends exactly the thread's operators |
| SingleProfileReport.AppendPhaseOperators | src/main/java/com/dremio/support/diagnostics/profilejson/singlefile/SingleProfileJsonHtmlReport.java:150-162 | the thread loop appends exactly the phase's operators |
| SingleProfileReport.CollectOperators | src/main/java/com/dremio/support/diagnostics/profilejson/singlefile/SingleProfileJsonHtmlReport.java:146-165 | the loop nest computes exactly the specified operator list, or its failure |
| SingleProfileReport.FillOperatorNames | src/main/java/com/dremio/support/diagnostics/profilejson/singlefile/SingleProfileJsonHtmlReport.java:166-192 | the name array holds each operator's "%02d" phase label, by index |
| SingleProfileReport.OperatorNameReadsBack | src/main/java/com/dremio/support/diagnostics/profilejson/singlefile/SingleProfileJsonHtmlReport.java:175-175 | the operator labels read back as the phase ids |
| SingleProfileReport.NavLinksOf | src/main/java/com/dremio/support/diagnostics/profilejson/singlefile/SingleProfileJsonHtmlReport.java:264-273 | one link per title, pairing title j with section j; fails when sections run out |
| SingleProfileReport.BuildNavLinks | src/main/java/com/dremio/support/diagnostics/profilejson/singlefile/SingleProfileJsonHtmlReport.java:264-273 | the link loop computes exactly those links or that failure |
| SingleProfileReport.GetText | src/main/java/com/dremio/support/diagnostics/profilejson/singlefile/SingleProfileJsonHtmlReport.java:67-273 | getText computes the specified threads, arrays, operators, sections, titles, fragments and links |
| SingleProfileReport.ReportWithoutProfile | src/main/java/com/dremio/support/diagnostics/profilejson/singlefile/SingleProfileJsonHtmlReport.java:255-262 | without a profile: no thread, section, title or link, only the notice fragment |
| SingleProfileReport.NavLinksAppend | src/main/java/com/dremio/support/diagnostics/profilejson/singlefile/SingleProfileJsonHtmlReport.java:264-273 | links of two lockstep list pairs joined are the joined links |
| SingleProfileReport.AddedLinks | src/main/java/com/dremio/support/diagnostics/profilejson/singlefile/SingleProfileJsonHtmlReport.java:111-254 | the report's own links: phases, timeline, duration, records, then convert-to-rel when shown |
| SingleProfileReport.ReportLinks | src/main/java/com/dremio/support/diagnostics/profilejson/singlefile/SingleProfileJsonHtmlReport.java:104-273 | sections and titles stay in lockstep, so every title links to its own section |
| SingleProfileReport.ReportSectionsShort | src/main/java/com/dremio/support/diagnostics/profilejson/singlefile/SingleProfileJsonHtmlReport.java:264-273 | a summary with fewer sections than titles makes the link loop throw |
| SingleProfileReport.ReportFragments | src/main/java/com/dremio/support/diagnostics/profilejson/singlefile/SingleProfileJsonHtmlReport.java:107-254 | six fragments; the convert-to-rel fragment only when enabled and found; arrays aligned with threads and operators |
| SingleProfileReport.ReportFails | src/main/java/com/dremio/support/diagnostics/profilejson/singlefile/SingleProfileJsonHtmlReport.java:67-273 | getText fails exactly on a null thread, a needed null metrics map, or sections running out |
| QueriesJsonHtmlReport.GetFailedParses | src/main/java/com/dremio/support/diagnostics/queriesjson/QueriesJsonHtmlReport.java:133-179 | the fixed head, one row per searched file and the close |
| QueriesJsonHtmlReport.FileRowsInOrder | src/main/java/com/dremio/support/diagnostics/queriesjson/QueriesJsonHtmlReport.java:166-176 | row i of the files table is file i's row |
| QueriesJsonHtmlReport.FileRowsLength | src/main/java/com/dremio/support/diagnostics/queriesjson/QueriesJsonHtmlReport.java:166-176 | the files table has exactly one row per searched file |
| QueriesJsonHtmlReport.FileRowReadsBack | src/main/java/com/dremio/support/diagnostics/queriesjson/QueriesJsonHtmlReport.java:167-175 | a file's counts read back with Integer.parseInt, and its error text appears verbatim |
| QueriesJsonHtmlReport.FailedFileCountIndices | src/main/java/com/dremio/support/diagnostics/queriesjson/QueriesJsonHtmlReport.java:791-791 | the invalid-file count is the number of failed files, at most the number of files |
| QueriesJsonHtmlReport.RatioReadsBack | src/main/java/com/dremio/support/diagnostics/queriesjson/QueriesJsonHtmlReport.java:792-795 | the "%d/%d" ratio splits into the two counts, and both read back |
| QueriesJsonHtmlReport.GenerateSummary | src/main/java/com/dremio/support/diagnostics/queriesjson/QueriesJsonHtmlReport.java:771-801 | no queries gives the notice; otherwise the seven-row table |
| QueriesJsonHtmlReport.SummaryRowsPlain | src/main/java/com/dremio/support/diagnostics/queriesjson/QueriesJsonHtmlReport.java:779-795 | the summary rows are seven name/value pairs of plain cells |
| QueriesJsonHtmlReport.PlainPairsTable | src/main/java/com/dremio/support/diagnostics/queriesjson/QueriesJsonHtmlReport.java:796-799 | a name/value table: two headers, one row per pair, two cells per row, no sort key, the export button |
| QueriesJsonHtmlReport.SummaryTableShape | src/main/java/com/dremio/support/diagnostics/queriesjson/QueriesJsonHtmlReport.java:778-800 | with queries: two headers, seven rows of two plain cells, the export button, the ratio last |
| QueriesJsonHtmlReport.SummaryCountsFailures | src/main/java/com/dremio/support/diagnostics/queriesjson/QueriesJsonHtmlReport.java:791-795 | the summary lists as many invalid files as failed, out of all files |
| QueriesJsonHtmlReport.QueriesJsonHtml | src/main/java/com/dremio/support/diagnostics/queriesjson/QueriesJsonHtmlReport.java:287-693 | a range shorter than one bucket gives the too-short page; otherwise the full report |
| QueriesJsonHtmlReport.GetText | src/main/java/com/dremio/support/diagnostics/queriesjson/QueriesJsonHtmlReport.java:696-769 | no queries is checked first; otherwise the queries page |
| QueriesJsonHtmlReport.PageDispatch | src/main/java/com/dremio/support/diagnostics/queriesjson/QueriesJsonHtmlReport.java:287-769 | the three pages partition the inputs; the full report's summary is the table, and its range is positive |
| QueriesJsonHtmlReport.PagesListEveryFile | src/main/java/com/dremio/support/diagnostics/queriesjson/QueriesJsonHtmlReport.java:382-751 | both pages that list the searched files list every file, in order |
| HtmlTableBuilder.AppendHeading | src/main/java/com/dremio/support/diagnostics/shared/HtmlTableBuilder.java:26-41 | the caption line, plus the Export CSV button only for a non-empty row list |
| HtmlTableBuilder.AppendFilter | src/main/java/com/dremio/support/diagnostics/shared/HtmlTableBuilder.java:43-72 | the filter box with its ids and the row label, "row" only for exactly one row |
| HtmlTableBuilder.AppendHeaders | src/main/java/com/dremio/support/diagnostics/shared/HtmlTableBuilder.java:81-85 | the header loop appends the header cells |
| HtmlTableBuilder.AppendCell | src/main/java/com/dremio/support/diagnostics/shared/HtmlTableBuilder.java:92-120 | one cell: data-sort when there is a sort key, tooltip form for truncated text |
| HtmlTableBuilder.AppendRow | src/main/java/com/dremio/support/diagnostics/shared/HtmlTableBuilder.java:90-123 | one row: the column loop between the row tags |
| HtmlTableBuilder.AppendRows | src/main/java/com/dremio/support/diagnostics/shared/HtmlTableBuilder.java:89-124 | the row loop appends every row, in order |
| HtmlTableBuilder.GenerateTable | src/main/java/com/dremio/support/diagnostics/shared/HtmlTableBuilder.java:19-129 | generateTable appends exactly the specified table |
| HtmlTableBuilder.AppendTableOpen | src/main/java/com/dremio/support/diagnostics/shared/HtmlTableBuilder.java:74-80 | appends the table tag carrying the table id, the head and the header row opening |
| HtmlTableBuilder.AppendHeadClose | src/main/java/com/dremio/support/diagnostics/shared/HtmlTableBuilder.java:86-88 | appends the header row and head closings and the body opening |
| HtmlTableBuilder.AppendClosing | src/main/java/com/dremio/support/diagnostics/shared/HtmlTableBuilder.java:125-127 | appends the body, table and outer div closings |
| HtmlTableBuilder.HeaderCellsInOrder | src/main/java/com/dremio/support/diagnostics/shared/HtmlTableBuilder.java:81-85 | header cell i holds header i: one th per header, in order |
| HtmlTableBuilder.TableCounts | src/main/java/com/dremio/support/diagnostics/shared/HtmlTableBuilder.java:19-129 | one th per header, one tr per row (none for null rows), one cell per column, data-sort per sort key, Export CSV exactly for non-empty rows |
| HtmlTableBuilder.CellContent | src/main/java/com/dremio/support/diagnostics/shared/HtmlTableBuilder.java:93-119 | the sort key follows data-sort, the opening tag ends in the tooltip classes exactly for truncated text, and truncated text appears twice |
| HtmlTableBuilder.ClassTagTail | src/main/java/com/dremio/support/diagnostics/shared/HtmlTableBuilder.java:93-104 | both class-carrying tags end in the tooltip classes exactly when the text is truncated |
| HtmlTableBuilder.CellsInOrder | src/main/java/com/dremio/support/diagnostics/shared/HtmlTableBuilder.java:92-121 | cell j of a row holds column j, right after the cells of the columns before it |
| HtmlTableBuilder.CellDataInRow | src/main/java/com/dremio/support/diagnostics/shared/HtmlTableBuilder.java:92-119 | column j's text sits in its row right after cell j's opening tag (and the tooltip tag for truncated text) |
| HtmlTableBuilder.RowsInOrder | src/main/java/com/dremio/support/diagnostics/shared/HtmlTableBuilder.java:89-124 | row i of the body holds row i's cells, right after the rows before it |
| HtmlTableBuilder.RowInTable | src/main/java/com/dremio/support/diagnostics/shared/HtmlTableBuilder.java:19-129 | in the whole table, row i sits after the heading, filter, table head and the rows before it |
| HtmlTableBuilder.FilterIds | src/main/java/com/dremio/support/diagnostics/shared/HtmlTableBuilder.java:43-60 | the input and span ids are tableID+"Input" and tableID+"Span", passed in order, and pairwise different |
| HtmlTableBuilder.RowLabelReadsBack | src/main/java/com/dremio/support/diagnostics/shared/HtmlTableBuilder.java:61-69 | the row label splits into the count, the noun and "shown"; the count reads back and the noun is "row" exactly for one row |

## Left out

- File and stream I/O (readers, writers, output streams) is not modelled. Input lines, capture statistics and profile DTOs are parameters.
- The HTML, CSS and JavaScript template text, `modernizeHtml` and `modernizeTable` are left out. Markup is tagged pieces; only the data and structure are modelled.
- Floating point is exact `real` arithmetic: no rounding, no NaN or Infinity. `Float.parseFloat` accepts decimal forms only (no hex floats, NaN or Infinity text).
- StringHash: String.hashCode is modelled over UTF-16 code units, so a supplementary character hashes as its two surrogates; KeyHash inherits this.
- StrLe: String.compareTo compares UTF-16 code units, but StrLe compares Unicode scalar values. The two orders differ only when a character in U+E000..U+FFFF meets a supplementary character at the first difference; SortStrings inherits this.
- ParseInt: only the ASCII digits 0-9 are digits, whereas Integer.parseInt also accepts the decimal digits of other scripts (Character.digit).
- Java long arithmetic is unbounded (no 64-bit wrap-around in end - start or in the counter sums). Only the 32-bit wrap of `String.hashCode` and `Objects.hash` is modelled.
- Calls into code outside the core are parameters:
  - ProfileSummaryReport's sections, titles and HTML;
  - the plan and convert-to-rel parsers (whether a graph was found is a boolean);
  - the findings search;
  - `Operator.createFromOperatorProfile` (only the ids and metric definitions are kept);
  - the plots and chart writers;
  - Human, Dates, DQDVersion and JsLibraryTextProvider;
  - the "%,d" and "%.2f" formatting of the queries summary.
- The QueryState and CoreOperatorType enums are parameters: the state names in ordinal order and the number of operator types.
- The text arrays of the single-profile report (thread names, operator text, times and records) are not modelled. The ids, labels and times that feed them are.
- The reporters and writers the queries report is built from are not modelled. Only the dispatch and the two tables it builds are.
- The HashMap enumeration order is not modelled: any order of the entries is allowed.
- ParseError carries the failure cause as a datatype, not Java's message text.
- Null headers, captions or error texts in the table builder are not modelled; they are non-null strings.
- The navigation link markup is not modelled; each link is a (section, title) pair.
- `showPlanDetails` and the front-end App.tsx are not part of this model.
