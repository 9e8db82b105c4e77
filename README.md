# gRPC test runner and message-size filter, modelled in Dafny

This project models two pieces of the gRPC repository and proves properties
of them.

**The test runner (`tools/run_tests/run_tests.py`).** The model covers:

- how a build configuration turns a test command into a job descriptor: tool prefix, environment overlay, flakiness and retry budgets, timeout scaling;
- how the `--gtest_list_tests` and `--benchmark_list_tests` listings of a C/C++ binary become one filtered job per test case;
- how the selected jobs are ordered, sampled and repeated for `--runs_per_test`;
- how the results of repeated runs are folded into run and failure totals and classified as FAILED, FLAKE or passing;
- the three phases of one pass (build, test, post-test);
- the exit-code bitmask;
- the small flag and configuration helpers.

The job scheduler (`python_utils/jobset.py`) is not part of this model. It is a function parameter, an oracle: given a request (phase, jobs, concurrency limits, stop-on-failure), it returns a failure count and a result set. Each pass records the requests it makes, in order.

**The message-size filter (`src/core/ext/filters/message_size/message_size_filter.cc`).** The model covers:

- where the send and receive limits come from: channel arguments and the per-method service config;
- how a call merges them, where a negative limit means unlimited;
- the parser of the per-method config;
- whether the filter is placed in a channel stack;
- the per-call state. This is a `class CallData` with methods for the batch handler, the two receive callbacks and the call combiner's later run of a trailing-metadata callback that was held back. It shows how a trailing-metadata callback that arrives while a receive-message callback is pending is held back, handed to the call combiner once the message callback runs, checked again when it is resumed, and delivered exactly once, with the call's size error attached.

Modules, one file each:

| module | file | contents |
|---|---|---|
| `Base` | base.dfy | `Option`, `Result` |
| `Text` | text.dfy | Python's `strip`, `find`, `split` and `join` |
| `Jobset` | jobset.dfy | `JobSpec` and `JobResult` |
| `Aggregation` | aggregation.dfy | the fold over results and the verdicts |
| `Flags` | flags.dfy | `runs_per_test_type` and the small helpers |
| `JobConfig` | job_config.dfy | `Config` and `job_spec` |
| `TestLists` | test_lists.dfy | the gtest and benchmark listings |
| `RunPlan` | run_plan.dfy | ordering, sampling and repetition |
| `Phases` | phases.dfy | `_build_and_run` and the exit code |
| `Watch` | watch.dfy | watch mode |
| `MessageSizeConfig` | message_size_config.dfy | limits, config parser, filter placement |
| `MessageSizeCall` | message_size_call.dfy | per-call state |

`Config.job_spec` gives a flaky job, or any job under `--allow_flakes`, exactly 4 flake retries and 1 timeout retry. Every other job gets 0 of each. It does not raise a smaller budget to a minimum (tools/run_tests/run_tests.py:142-143).

## Model

| member | source | states |
|---|---|---|
| Aggregation.CalculateNumRunsFailures | tools/run_tests/run_tests.py:1709-1716 | the run count is the number of results plus every positive `retries`; the failure count is the sum of every positive `num_failures`; runs are at least the number of results, failures are not negative |
| Aggregation.SumPermutation | tools/run_tests/run_tests.py:1711-1715 | the accumulation gives the same total for any reordering of the result list |
| Aggregation.TotalsPermutation | tools/run_tests/run_tests.py:1709-1716 | both totals, and so the verdict, are unchanged when the results are permuted |
| Aggregation.FailuresAtMostRuns | tools/run_tests/run_tests.py:1709-1716 | when no result counts more failed attempts than it made, the failure total lies between 0 and the run total |
| Aggregation.Classify | tools/run_tests/run_tests.py:1826-1834 | no message iff there are no failures; FAILED iff there are failures and every run failed; otherwise FLAKE with the failure and run counts |
| Aggregation.FlakeMeansMixed | tools/run_tests/run_tests.py:1829-1834 | a FLAKE verdict on consistent results means that some runs failed and some passed |
| Aggregation.ReportVerdicts | tools/run_tests/run_tests.py:1824-1834 | a test is reported iff its results have a positive failure total; its verdict is the classification of its totals, never a pass |
| Flags.PyInt | tools/run_tests/run_tests.py:1301 | a value comes back iff the text is an integer literal (one optional sign, then digits with single underscores between them) once the whitespace `int()` skips is removed from both ends |
| Flags.SeparatorNotSkipped | tools/run_tests/run_tests.py:1300-1307 | a text starting with one of \x1c to \x1f is no integer for `int()`, so the flag value is rejected with the error message |
| Flags.PyIntPadded | tools/run_tests/run_tests.py:1301 | a decimal literal with an optional sign, and with whitespace `int()` skips on either side, reads as its value, negated for `-` |
| Flags.RunsPerTestType | tools/run_tests/run_tests.py:1288-1307 | 0 iff the text is `inf`; a positive result iff `int()` yields a positive value, which is returned; every other text is rejected with the "is not a positive integer or 'inf'" message |
| Flags.RunsPerTestDecimal | tools/run_tests/run_tests.py:1300-1304 | the decimal text of every positive number is accepted as that number |
| Flags.RunsPerTestRejectsNegative | tools/run_tests/run_tests.py:1302-1307 | every negative decimal is rejected |
| Flags.DecimalStringValue | tools/run_tests/run_tests.py:1301 | the decimal rendering of a number is a literal that `int()` reads back as the same number |
| Flags.DockerArchSuffix | tools/run_tests/run_tests.py:1277-1285 | `default` and `x64` give `x64`, `x86` gives `x86`, and any other architecture exits |
| Flags.SplitSubmoduleSpec | tools/run_tests/run_tests.py:1509-1516 | the submodule contains no colon; without a colon the branch is `master`; with one, submodule, colon and branch rebuild the entry |
| Flags.SplitSubmoduleRoundTrip | tools/run_tests/run_tests.py:1510-1516 | `submodule:branch` splits back into the two parts, even when the branch contains colons |
| Flags.BuildStepEnviron | tools/run_tests/run_tests.py:1650-1655 | `CONFIG` is always the configuration; `MSBUILD_CONFIG` is present iff the configuration has an MSBuild name, and then holds it; there are no other keys |
| JobConfig.Config.constructor | tools/run_tests/run_tests.py:100-113 | the config's environment is the given one, or an empty one, with `CONFIG` set to the build configuration; the other fields are stored as given |
| JobConfig.Config.JobSpec | tools/run_tests/run_tests.py:115-143 | the command gets the tool prefix; the environment is the config's overlaid key by key with the job's, the job's keys winning; the CPU cost is replaced by a known override for the shortname; a set, non-zero timeout is scaled by the multiplier and a missing or zero one gives none; retries are 4 and 1 for a flaky job or under `--allow_flakes`, else 0 and 0 |
| TestLists.DropComment | tools/run_tests/run_tests.py:368-370 | the result is the prefix of the line before its first `#`, the whole line when there is none |
| TestLists.GtestFilters | tools/run_tests/run_tests.py:366-381 | the loop over the output's lines produces exactly the reference definition of the listing's filters, failing where the source's assertions or indexing fail |
| TestLists.GtestOnePerTestLine | tools/run_tests/run_tests.py:371-382 | a listing that parses yields one filter per indented line |
| TestLists.GtestTestBeforeSuite | tools/run_tests/run_tests.py:373-376 | an indented line before any suite line stops the parse with the AssertionError of `assert base is not None`, even for a line that is a single space |
| TestLists.GtestShallowIndent | tools/run_tests/run_tests.py:373-377 | under a suite, a line indented by one space only stops the parse: an index error for a single space, an assertion error otherwise |
| TestLists.GtestIndented | tools/run_tests/run_tests.py:373-378 | a suite's indented lines become the suite name followed by each test name |
| TestLists.GtestListingRoundTrip | tools/run_tests/run_tests.py:366-381 | the lines gtest prints for a list of suites parse back into every `suite.test` filter, in order |
| TestLists.GtestListingTextRoundTrip | tools/run_tests/run_tests.py:364-381 | the same, starting from the newline-joined listing text |
| TestLists.BenchmarkFilters | tools/run_tests/run_tests.py:341-344 | the loop keeps each non-blank line, stripped, in order, as the reference definition says |
| TestLists.BenchmarkRoundTrip | tools/run_tests/run_tests.py:341-344 | a listing of non-empty names without whitespace gives back exactly those names |
| TestLists.FilteredJobs | tools/run_tests/run_tests.py:379-392 | one job per test, whose command is the tool prefix and the binary, the filter flag for that test, and the target's arguments; its shortname is that command joined by spaces, then the shortname suffix; it is the `job_spec` job for that command with the target's CPU cost (unless a shortname override replaces it), its timeout scaled by the multiplier, the target's environment over the config's, and the retry budget of a non-flaky job |
| TestLists.GtestJobs | tools/run_tests/run_tests.py:359-392 | a failing listing gives its failure; otherwise one filtered job per parsed `suite.test`, in order, with its `--gtest_filter` command, shortname, CPU cost, timeout, environment and retries as for `FilteredJobs` |
| TestLists.BenchmarkJobs | tools/run_tests/run_tests.py:336-358 | one job per listed benchmark, in order, filtered with `--benchmark_filter=<name>$`, with its shortname, CPU cost, timeout, environment and retries as for `FilteredJobs` |
| RunPlan.SortByCost | tools/run_tests/run_tests.py:1786 | the result is ordered by CPU cost and is a permutation of the input |
| RunPlan.InsertByCost | tools/run_tests/run_tests.py:1786 | inserting into a cost-ordered list keeps it ordered and adds exactly the one job |
| RunPlan.SortByCostStable | tools/run_tests/run_tests.py:1786 | the sort is stable: for every cost, the jobs of that cost come out in the order they went in |
| RunPlan.InsertByCostStable | tools/run_tests/run_tests.py:1786 | an inserted job lands after every job of the same cost, leaving their order alone |
| RunPlan.Repeat | tools/run_tests/run_tests.py:1805-1807 | `n` repetitions of one run hold `n` times as many jobs |
| RunPlan.RepeatAt | tools/run_tests/run_tests.py:1805-1807 | position i of the repeated stream is position i mod n of one run |
| RunPlan.RepeatMultiset | tools/run_tests/run_tests.py:1805-1807 | in the repeated stream each job occurs `runs_per_test` times as often as in one run |
| RunPlan.ExpandRuns | tools/run_tests/run_tests.py:1777-1807 | sampling combined with several runs fails iff the run is not deterministic, the sample is partial and `runs_per_test` is not 1; `inf` with no tests fails iff nothing was sampled; otherwise a finite count gives one run repeated that many times, and `inf` gives an endless non-empty cycle |
| RunPlan.OneRun | tools/run_tests/run_tests.py:1785-1801 | in the deterministic mode one run is the selected jobs ordered by cost; otherwise it is the drawn sample |
| RunPlan.OneRunIsPermutation | tools/run_tests/run_tests.py:1785-1801 | without a partial sample, one run holds exactly the selected jobs, ordered by cost in the deterministic mode |
| RunPlan.FiniteRunsCount | tools/run_tests/run_tests.py:1805-1807 | a finite count yields a stream of `runs_per_test` times the number of selected jobs, each job `runs_per_test` times |
| Phases.BuildAndRun | tools/run_tests/run_tests.py:1741-1873 | builds run first, one at a time, stopping at the first failure; a failed build returns only BUILD and runs nothing else; build-only stops after the build; a planning error aborts before the test phase; the test and post-test phases run iff the build passed, build-only is off and the plan is valid; the tests then run with the user's limits, stop-on-failure and time budget and with the cancellation check, and the post-test steps one at a time without stopping; POST_TEST and TEST are each reported iff their phase failed, and BUILD never with them; the printed verdicts are exactly those of the test result set |
| Phases.ExitCode | tools/run_tests/run_tests.py:1894-1908 | the code is 0 to 7; bit 1 is set iff the build failed, bit 2 iff the tests failed, bit 4 iff the post-test steps failed; it is 0 iff nothing failed, and only then does the SUCCESS summary print |
| Watch.WatchAsWritten | tools/run_tests/run_tests.py:1876-1890 | as written, watch mode never prints the "All tests are now passing properly" notice, whatever the passes return |
| Watch.Watch | tools/run_tests/run_tests.py:1876-1890 | corrected, the notice prints at a pass iff it returned no failures and the pass before it did |
| Text.Find | tools/run_tests/run_tests.py:368 | -1 iff the character is absent; otherwise the index of its first occurrence |
| Text.Strip | tools/run_tests/run_tests.py:342 | the result is no longer than the text and neither starts nor ends with a character of the given whitespace set (`str.isspace()` for `str.strip()`) |
| Text.StripRemovesSpace | tools/run_tests/run_tests.py:342 | the text is the stripped result with only whitespace before and after it |
| Text.Split | tools/run_tests/run_tests.py:341 | there is at least one piece |
| Text.SplitPiecesFree | tools/run_tests/run_tests.py:341 | no piece of a split holds the separator |
| Text.Join | tools/run_tests/run_tests.py:385-386 | the result starts with the first part and is as long as all parts plus one separator between each two |
| Text.JoinSplit | tools/run_tests/run_tests.py:367 | joining the pieces of a split with the separator gives back the text |
| Text.SplitJoin | tools/run_tests/run_tests.py:367 | splitting a join of separator-free parts gives back the parts |
| Text.StripIndented | tools/run_tests/run_tests.py:378 | stripping leading whitespace from an indented name gives the name |
| Text.StripTrimmed | tools/run_tests/run_tests.py:342 | a text with no whitespace at either end strips to itself |
| MessageSizeConfig.GetMaxRecvSizeFromChannelArgs | src/core/ext/filters/message_size/message_size_filter.cc:123-128 | with a minimal stack the receive limit admits every length; otherwise it is the receive-length channel argument |
| MessageSizeConfig.GetMaxSendSizeFromChannelArgs | src/core/ext/filters/message_size/message_size_filter.cc:130-135 | with a minimal stack the send limit admits every length; otherwise it is the send-length channel argument |
| MessageSizeConfig.GetMessageSizeLimits | src/core/ext/filters/message_size/message_size_filter.cc:307-313 | with a minimal stack both limits are -1; otherwise they are the integer channel arguments, in [-1, INT_MAX] |
| MessageSizeConfig.MergeLimit | src/core/ext/filters/message_size/message_size_filter.cc:157-170 | the merged limit is one of the two, and a message is over it exactly when it is over the channel limit or the method limit |
| MessageSizeConfig.MergeNeverLooser | src/core/ext/filters/message_size/message_size_filter.cc:157-170 | every length the channel rejects, in either direction, the call rejects too |
| MessageSizeConfig.MergeSymmetric | src/core/ext/filters/message_size/message_size_filter.cc:160-169 | the merged limit rejects the same lengths whichever way round the two limits are given |
| MessageSizeConfig.ParsePerMethodParams | src/core/ext/filters/message_size/message_size_filter.cc:68-114 | an error iff some field is present but neither a string nor a number, or parses to -1; the errors of both fields are reported, request field first; on success the request size is the send limit and the response size the receive limit, each -1 exactly when its field is absent |
| MessageSizeConfig.ErrorsPerField | src/core/ext/filters/message_size/message_size_filter.cc:76-107 | each field contributes at most one error, which names that field, and a field without an error is absent or non-negative |
| MessageSizeConfig.EmptyConfigUnlimited | src/core/ext/filters/message_size/message_size_filter.cc:75-92 | a config with neither field parses without errors to unlimited limits |
| MessageSizeConfig.MaybeAddMessageSizeFilterSubchannel | src/core/ext/filters/message_size/message_size_filter.cc:345-354 | the filter is prepended iff no minimal stack is wanted, and the stage fails only when that prepend fails |
| MessageSizeConfig.MaybeAddMessageSizeFilter | src/core/ext/filters/message_size/message_size_filter.cc:358-382 | the stage fails only when the filter is prepended and the prepend fails |
| MessageSizeConfig.FilterDecision | src/core/ext/filters/message_size/message_size_filter.cc:358-382 | the direct and server stage adds the filter iff no minimal stack is wanted and the send-length argument, the receive-length argument or a service config is set |
| MessageSizeConfig.OmittedFilterEnforcesNothing | src/core/ext/filters/message_size/message_size_filter.cc:358-382 | where the filter is left out, the limits it would have used admit every length |
| MessageSizeConfig.SubchannelAddsWheneverDirectDoes | src/core/ext/filters/message_size/message_size_filter.cc:345-382 | whenever the direct-channel stage adds the filter, the subchannel stage does too |
| MessageSizeCall.AddChild | src/core/ext/filters/message_size/message_size_filter.cc:247-248 | combining with no error on either side gives the other side |
| MessageSizeCall.AddChildReportsBoth | src/core/ext/filters/message_size/message_size_filter.cc:247-248 | the combined error reports the child and keeps everything the source error reported |
| MessageSizeCall.RecvError | src/core/ext/filters/message_size/message_size_filter.cc:201-208 | a size error exists iff the limit is not negative and the length is above it; it carries RESOURCE_EXHAUSTED |
| MessageSizeCall.PassedError | src/core/ext/filters/message_size/message_size_filter.cc:201-214 | an admitted message passes the incoming error on unchanged; a rejected one never passes on no error |
| MessageSizeCall.PassedErrorReportsSizeError | src/core/ext/filters/message_size/message_size_filter.cc:201-209 | the error passed up with a rejected message carries the RESOURCE_EXHAUSTED size error and keeps everything the incoming error reported |
| MessageSizeCall.CallData.constructor | src/core/ext/filters/message_size/message_size_filter.cc:145-171 | without a method config the call's limits are the channel's; with one, each is the merge of the channel and method limit; nothing is pending |
| MessageSizeCall.CallData.StartBatch | src/core/ext/filters/message_size/message_size_filter.cc:255-289 | the batch fails with the RESOURCE_EXHAUSTED send-size error iff it sends a message over a non-negative send limit, and then nothing changes; otherwise the filter's callbacks replace the batch's recv callbacks, which are kept, and the batch goes down; only the two kept callbacks can change |
| MessageSizeCall.CallData.RecvTrailingMetadataReady | src/core/ext/filters/message_size/message_size_filter.cc:235-252 | while a recv-message callback is pending, the error is stored, the deferral flag is set and nothing runs; otherwise the original callback runs once, with the call's error attached |
| MessageSizeCall.CallData.ResumeRecvTrailingMetadataReady | src/core/ext/filters/message_size/message_size_filter.cc:225-228 | the queued trailing callback, run again by the call combiner, is held back once more if a newer recv-message callback is pending; otherwise the original callback runs once with the stored error and the call's error attached |
| MessageSizeCall.CallData.ContinueRecvTrailingMetadataReady | src/core/ext/filters/message_size/message_size_filter.cc:239-251 | the check both runs of the trailing callback make: defer while a recv-message callback is pending, otherwise run the original callback with the call's error attached |
| MessageSizeCall.CallData.RunOriginalRecvTrailingMetadataReady | src/core/ext/filters/message_size/message_size_filter.cc:247-251 | the original trailing callback runs with the call's error added as a child |
| MessageSizeCall.CallData.RecvMessageReady | src/core/ext/filters/message_size/message_size_filter.cc:198-231 | the pending callback is cleared and run with the checked error; a rejected message becomes the call's error; a held-back trailing callback stops being deferred and is queued on the call combiner instead; the fired/delivered invariant is kept |
| MessageSizeCall.CallData.QueueDeferredTrailing | src/core/ext/filters/message_size/message_size_filter.cc:221-228 | a held-back trailing callback is no longer deferred but queued, and nothing else is |
| MessageSizeCall.CallData.RunMessageReady | src/core/ext/filters/message_size/message_size_filter.cc:230 | the upper layer's message callback runs with the given error, and no trailing callback is added |
| MessageSizeCall.CallData.CheckReceivedMessage | src/core/ext/filters/message_size/message_size_filter.cc:201-214 | a message over a non-negative receive limit gets a RESOURCE_EXHAUSTED child and sets the call's error; any other message leaves both as they were |
| MessageSizeCall.TrailingBeforeMessage | src/core/ext/filters/message_size/message_size_filter.cc:216-251 | when trailing metadata is signalled first, the upper layer still sees the message callback first and the trailing callback once, after it, carrying the message's size error |
| MessageSizeCall.NewerMessageDefersAgain | src/core/ext/filters/message_size/message_size_filter.cc:216-251 | when a newer recv-message batch arrives before the queued trailing callback runs, that callback is held back again and reaches the upper layer once, after both message callbacks, still carrying the first message's size error |
| MessageSizeCall.MessageBeforeTrailing | src/core/ext/filters/message_size/message_size_filter.cc:198-252 | in the ordinary order the upper layer sees the same two callbacks with the same errors |
| MessageSizeCall.TrailingAtMostFired | src/core/ext/filters/message_size/message_size_filter.cc:218-251 | the upper layer never sees more trailing callbacks than the transport fired, and exactly as many once none is held back or queued |

## Left out

- The job scheduler's internals are not part of this model (tools/run_tests/run_tests.py:44). This covers admission by count and CPU cost, retries, timeouts, `max_time` and `stop_on_failure`. It is a function parameter of `Phases.BuildAndRun`. A request carries the stop-on-failure flag, the time budget and whether the pass's cancellation check is handed over, since these change which jobs the scheduler admits; the callable itself is reduced to that flag. The `newline_on_success`, `travis` and `quiet_success` arguments are not in the request, and what the scheduler does with them is not modelled.
- Subprocesses, docker re-invocation, git submodule updates, the port server, antagonists, the BigQuery upload and the JUnit XML report are left out. The gtest and benchmark listings are taken as text, and the per-language `configure` and `test_specs` reads are out.
- `TestLists.GtestJobs` and `TestLists.BenchmarkJobs`: a target whose binary does not exist contributes no jobs in the source (`os.path.isfile`, tools/run_tests/run_tests.py:329); the model takes a binary that exists and its listing.
- `_has_epollexclusive()` removes `epollex` from the polling strategies before the test jobs are generated (tools/run_tests/run_tests.py:1762-1766). That choice belongs to job generation and is not modelled.
- `JobConfig.Config.JobSpec`: the flaky-test set and the CPU-cost overrides are fields of a `FlakePolicy` parameter. The source keeps them in globals that it creates empty (tools/run_tests/run_tests.py:1497-1498) and never fills, so in the source only the explicit `flaky` argument and `--allow_flakes` make a job flaky, and no override applies.
- The argparse surface is out. Its values enter as parameters and a `Settings` record.
- `random.sample` is out. The sample is a parameter, which must be a sub-multiset of the selected jobs and the whole of them when the percentage is 100.
- The sample size `int(num_jobs * pct / 100.0)` and `isclose(pct, 100.0)` are out, because they are floating point. The model uses a "full sample" flag instead.
- CPU costs, timeouts and the timeout multiplier are exact `real`s. IEEE rounding is not modelled.
- The Python set behind `one_run` is a sequence in the set's iteration order. Deduplication of equal job descriptors is not modelled.
- `Aggregation.ReportVerdicts`: builds a map from test name to its FAILED or FLAKE verdict. The `sorted()` printing order is not kept, and neither is the message text.
- `Flags.PyInt`: models Python 3 `int()` in base 10. It skips the ASCII whitespace and the non-ASCII `str.isspace()` characters around the literal (not \x1c to \x1f), reads one sign, and digits with single underscores between them. `int()` also accepts non-ASCII decimal digits (Arabic-Indic, fullwidth and others); the model accepts only `0` to `9`.
- `JobConfig.Config.constructor`: copies the caller's dictionary. In Python the config aliases it and writes `CONFIG` into it.
- `_pypy_pattern_function`, `_python_pattern_function` and the other per-language configuration classes are not part of this model. They only pick interpreter names for languages other than C/C++.
- The watch-mode polling and sleeping (tools/run_tests/run_tests.py:1876-1892) is out. Watch mode is modelled on a finite sequence of pass results.
- The C core's plumbing is out: closure scheduling, the call combiner's START/STOP and the thread serialisation it gives, error reference counting, placement new and destroy, and channel-stack registration. The callbacks are sequential method calls on one `CallData`.
- `MessageSizeCall.CallData.ResumeRecvTrailingMetadataReady`: the call combiner runs the queued trailing callback at some later point. The model makes that run a separate method, which the caller invokes; when it runs relative to other events is not constrained beyond its precondition.
- `MessageSizeCall.AddChild`: `grpc_error_add_child` is not part of this model. It has the semantics its callers rely on: an absent side yields the other, otherwise the child is appended. Its test for pointer identity is replaced by value equality.
- `MessageSizeCall.CallData.StartBatch`: with a failed batch, `grpc_transport_stream_op_batch_finish_with_failure` also runs the batch's own callbacks with the error. That function is not part of this model, so its effect is returned only as the failure.
- These helpers are not part of this model: `gpr_parse_nonnegative_int`, `grpc_channel_args_find_integer`, `grpc_channel_args_want_minimal_stack` and the service-config lookup. The parse is a function parameter returning -1 or a non-negative `int`. The integer lookups are fields of `ChannelArgs` in [-1, INT_MAX], so the default lengths (`GRPC_DEFAULT_MAX_*_MESSAGE_LENGTH`) are not named. The service config of a call is an optional `Limits` handed to the constructor.
- The JSON value is the object of a method config's fields. Its `string_value()` text is given for strings and numbers. A JSON value that is not an object is not modelled.
- The error texts are structured. The printf-style description (`"%s message larger than max (%u vs. %d)"`) is rendered by `MessageSizeCall.DescriptionText`, and no lemma states anything about its characters.

## Findings

| source | as written | input that shows it | evidently intended | confidence | as-written member | corrected member |
|---|---|---|---|---|---|---|
| tools/run_tests/run_tests.py:1877-1889 | `errors = _build_and_run(...) == 0` compares the returned list with the integer 0, so `errors` is always False; `success` is set once to True and never updated, so `not previous_success` never holds | passes that return `[TEST]` and then `[]`: the second pass recovers, but no SUCCESS notice prints | record whether each pass returned no failures, and announce the first passing pass after a failing one | high (not executed) | Watch.WatchAsWritten | Watch.Watch |
