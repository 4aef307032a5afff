# MCP-Ghidra5 decision logic in Dafny

This project models the decision logic of the MCP-Ghidra5 binary-analysis server and proves properties about it. Five pieces are modelled:

- **AI model router** (`ai_providers.py`). This covers:
  - the model registry;
  - credential lookup in environment variables;
  - availability;
  - the preferred → default → fallback-list model selection;
  - `query_model` with its per-attempt usage counters and single retry;
  - usage statistics;
  - the Claude and Gemini message translations;
  - the token budget of `query_ai_with_fallback`.
- **Persistent analysis cache** (`cache_utils.py`, `AnalysisCache`). The SQLite table is an index map and the payload directory is a second map. The model covers:
  - key derivation;
  - `get`, with its stale-row and dangling-row eviction;
  - `put`, with size-driven least-recently-used eviction;
  - the expiry sweep;
  - `clear_cache`.

  It also covers `TokenOptimizer.optimize_prompt`, which trims an over-long prompt to its keyword lines plus as many other lines as fit.
- **Tier-1 tool helpers** (`tier1_tools.py`). These are:
  - the file cache `CacheManager`, with a TTL and a bound that keeps the 100 newest files;
  - string classification;
  - hex-byte extraction and magic detection;
  - the objdump and readelf summaries;
  - the post-processing inside each `run_*_analysis`: which commands are built, how outcomes become the `results` dict, and how the cache is consulted and filled.
- **Binary diff engine** (`binary_diff_engine.py`). This covers:
  - the byte-level diff;
  - the string and function set differences;
  - the objdump function-block parser;
  - the ELF header comparison;
  - the metadata diff;
  - input validation;
  - the `comprehensive_diff` orchestration. As written it answers from the cache or rejects every input, because its validation always fails. A corrected version, kept apart under `…Corrected` names, validates, runs the requested comparisons and stores the report.
- **Input validators** (`security_utils.py`). These are:
  - the allow-list and range checks on tool arguments;
  - query sanitising;
  - the dangerous-directory rule of the path check;
  - magic-header detection;
  - the malware-signature scan.

The outside world enters as parameters. Each is listed here:

| Outside input | How it is modelled |
|---|---|
| Environment variables | A map. |
| Local model server probe | The set of installed model names it reports. |
| HTTP exchanges | A function from the attempt and its request to a reply. |
| Subprocess calls | A function from the argument vector to `(success, stdout, stderr)`. |
| The clock | A number in microseconds. |
| File contents, sizes, modification times and digests | Maps. |

SHA-256 and MD5 digests are taken as opaque values. Where a hash of parameters appears, the key keeps the canonical parameter list itself.

The modules are:

| Module | Contents |
|---|---|
| `Wrappers`, `Bytes` | Option and Result; a byte newtype. |
| `Text` | The Python `str` operations used (`strip`, `split`, `split()`, `lower`, `startswith`, `join`, the `\s+` substitution). |
| `Json` | JSON-like values and the `sort_keys=True` canonical order. |
| `Ordering` | Ascending order by an attribute. |
| `AiProviders` | `ai_providers.py`. |
| `AnalysisCache` | `AnalysisCache` of `cache_utils.py`. |
| `TokenOptimizer` | `TokenOptimizer.optimize_prompt` of `cache_utils.py`. |
| `Tier1Cache` | `CacheManager` of `tier1_tools.py`. |
| `Tier1Analysis`, `Tier1Summaries`, `Tier1Runs` | The rest of `tier1_tools.py`. |
| `DiffParsing` | The parsers of `binary_diff_engine.py`. |
| `DiffLevels` | The file, string and function comparisons. |
| `DiffEngine` | Validation and `comprehensive_diff`, as written and corrected. |
| `Security` | `security_utils.py`. |

Classes are used where the source updates fields in place:

- `AiProviders.AIModelManager` (its usage counters);
- `AnalysisCache.Cache` (index and payload store);
- `Tier1Cache.CacheManager` (its cache directory);
- `DiffEngine.BinaryDiffEngine` (its cache).

The loops that build values become methods proved against specification functions, for example:

- the byte scan;
- the objdump parser;
- `optimize_prompt`'s partition and fill loops;
- the least-recently-used victim loop.

### Notes on the code

- **A changed artifact and its old row.** `get_cached_result` re-checks the file's digest against the stored one (lines 165-170) as if a changed file would find its old row. But the key already embeds the first 16 characters of that digest, so a changed file is looked up under a different key and simply misses. Its old row stays until it expires or is evicted. The digest-mismatch branch is reached only when two digests share their first 16 characters. The model keeps the code's behaviour: `AnalysisCache.Cache.Get` has that branch, and `AnalysisCache.CacheKeyOf` is the key.
- **The size check.** `cache_result` deletes the new payload and fails when `_check_cache_size_limit` answers false (lines 216-218). The check answers true whenever it completes, whether or not eviction freed enough space, so a put never aborts for size. `AnalysisCache.Cache.CheckSizeLimit` ensures `ok`.

## Model

| member | source | states |
|---|---|---|
| AiProviders.RegistryKeys | MCP-Ghidra5/ai_providers.py:49-162 | The registry order lists exactly the configured model ids. |
| AiProviders.RegistryLocalModels | MCP-Ghidra5/ai_providers.py:49-162 | A model is free exactly when it is an Ollama model, and needs a key exactly when it is not. |
| AiProviders.FirstUsable | MCP-Ghidra5/ai_providers.py:191-194 | The index of the first variable that is set and not blank, with none before it usable; none only when no variable is usable. |
| AiProviders.GetApiKey | MCP-Ghidra5/ai_providers.py:178-196 | None for Ollama. A key exists exactly when some variable of the provider's list is usable, and it is the first such variable's value, trimmed. |
| AiProviders.AvailabilityCases | MCP-Ghidra5/ai_providers.py:198-213 | Unknown ids are never available. Ollama models are available exactly when the probe lists them. Any other model is available exactly when a key resolves. |
| AiProviders.FirstAvailable | MCP-Ghidra5/ai_providers.py:242-246 | The first available entry of the fallback list, in list order, or none when no entry is available. |
| AiProviders.BestAvailableModel | MCP-Ghidra5/ai_providers.py:233-251 | Returns the preferred model when it is given and available; else the default when available; else the first available fallback; else the default. |
| AiProviders.SelectionAvailableOrDefault | MCP-Ghidra5/ai_providers.py:233-251 | The selected model is available, or nothing selection may pick is available and it is the default. |
| AiProviders.ClaudeSplitMeaning | MCP-Ghidra5/ai_providers.py:350-357 | The split loop keeps exactly the non-system messages, in order, and ends holding the last system message's content. |
| AiProviders.NonSystem | MCP-Ghidra5/ai_providers.py:353-357 | Reference definition: only non-system messages of the input are kept. |
| AiProviders.LastSystem | MCP-Ghidra5/ai_providers.py:353-355 | Reference definition: present exactly when some message is a system message, and then the content of the last one. |
| AiProviders.ClaudeTranslation | MCP-Ghidra5/ai_providers.py:350-367 | The Claude request drops every system message, keeps the rest in order, and sets `system` to the last system message's content only when that content is non-empty. |
| AiProviders.ToGemini | MCP-Ghidra5/ai_providers.py:386-392 | Every message is kept, in order, with its content. `user` and `system` become `user`; anything else becomes `model`. |
| AiProviders.TokenBudgetValues | MCP-Ghidra5/ai_providers.py:595-600 | The budget is analysis→4000, exploit→3000, and 2000 for everything else. |
| AiProviders.EffectiveMaxTokens | MCP-Ghidra5/ai_providers.py:323 | A given non-zero budget is used; an absent or zero budget gives the model's own `max_tokens`. |
| AiProviders.Dispatch | MCP-Ghidra5/ai_providers.py:266-283 | No request is sent for the unsupported local-API provider, or when a keyed provider has no key; otherwise the reply is the wire's answer to the request built for the model. |
| AiProviders.EstimatedCost | MCP-Ghidra5/ai_providers.py:529-532 | The cost is free exactly when the model's input price is 0.0. |
| AiProviders.MostUsedIsMax | MCP-Ghidra5/ai_providers.py:558 | `most_used_model` is None exactly when no call is recorded. Otherwise it is a recorded model whose count is at least every other count. |
| AiProviders.AvailableIn | MCP-Ghidra5/ai_providers.py:547-550 | The available models, exactly those of the registry that are available. |
| AiProviders.AIModelManager.constructor | MCP-Ghidra5/ai_providers.py:167-176 | The default is `DEFAULT_AI_MODEL`, else `gpt-4o`, and no usage is recorded. |
| AiProviders.AIModelManager.TrackUsage | MCP-Ghidra5/ai_providers.py:523-527 | The model's counter grows by exactly one, a new model being appended to the insertion order, and no other counter changes. |
| AiProviders.AIModelManager.GetUsageStats | MCP-Ghidra5/ai_providers.py:543-559 | `total_calls` is the sum of the counters, `total_models` the registry size, and `most_used_model` is None exactly when nothing is recorded. |
| AiProviders.AIModelManager.QueryModel | MCP-Ghidra5/ai_providers.py:253-307 | The result and the models attempted are `QueryOutcome`: the selected model's reply with its metadata; after a failure, the retry when the caller named the failed non-default model; otherwise "All AI models failed. Last error: " and the reply's error. Each counter grows by the attempts made on its model, and the total by their number. |
| AiProviders.QueryAnswerIsLastReply | MCP-Ghidra5/ai_providers.py:283-297 | A success carries exactly the text the last attempted model's provider returned. Its metadata names that model and its provider, with `len // 4` tokens. |
| AiProviders.QueryFirstReplyWins | MCP-Ghidra5/ai_providers.py:266-297 | When the selected model replies, that reply is returned and no other model is attempted. |
| AiProviders.QueryRetriesOnlyNamedModel | MCP-Ghidra5/ai_providers.py:299-304 | A second model is attempted exactly when the first failed, the caller named it and it is not the default. The second is the selection with no model named. With no model named there is never a retry. |
| AiProviders.QueryErrorIsLastFailure | MCP-Ghidra5/ai_providers.py:299-307 | A failure reports the missing registry entry, or the last attempted provider's own error after "All AI models failed. Last error: ". |
| AiProviders.AIModelManager.QueryModelRetry | MCP-Ghidra5/ai_providers.py:303-307 | The result is `RetryOutcome`: one attempt, on the selection with no model named, giving its reply as the answer or its error as "All AI models failed". |
| AiProviders.QueryAiWithFallback | MCP-Ghidra5/ai_providers.py:579-620 | The query is `QueryOutcome` for the given preference (else `AI_MODEL_PREFERENCE`) with the operation type's token budget. Its answer is returned unchanged, and its error is re-raised prefixed "All AI providers failed: ". |
| AiProviders.BudgetReachesRequest | MCP-Ghidra5/ai_providers.py:594-609 | Every request built with the operation type's budget carries that budget as its token limit. |
| AiProviders.TrackedValid | MCP-Ghidra5/ai_providers.py:523-527 | Counting one more call keeps every counter positive and the insertion order duplicate-free and in step with the counters. |
| AiProviders.SumCountsBump | MCP-Ghidra5/ai_providers.py:545 | Bumping one recorded counter adds exactly one to `total_calls`. |
| AiProviders.SumCountsNew | MCP-Ghidra5/ai_providers.py:525-527 | Recording a first call for a model adds exactly one to `total_calls`. |
| AnalysisCache.Prefix16 | MCP-Ghidra5/cache_utils.py:123 | `s[:16]`: a prefix of at most 16 characters, exactly 16 when the input has that many. |
| AnalysisCache.CacheKeyOf | MCP-Ghidra5/cache_utils.py:112-128 | The key holds the analysis type, the first 16 characters of the file digest, and the parameters in key-sorted order with the same entries. |
| AnalysisCache.KeyIgnoresParamOrder | MCP-Ghidra5/cache_utils.py:119-123 | Parameter dicts with the same entries give the same key whatever their insertion order. |
| AnalysisCache.RowFor | MCP-Ghidra5/cache_utils.py:204-229 | The inserted row records the file's digest, a payload name under its own key, and creation and access times equal to now. |
| AnalysisCache.TotalSizeRemove | MCP-Ghidra5/cache_utils.py:243-246 | The directory total counts each payload file once, in any order. |
| AnalysisCache.Cache.constructor | MCP-Ghidra5/cache_utils.py:27-46 | The size limit and expiry come from `MAX_CACHE_SIZE_MB` and `CACHE_EXPIRY_HOURS`. Opening an enabled cache sweeps the expired rows and their payload files out of the persisted state. |
| AnalysisCache.Cache.CleanupExpired | MCP-Ghidra5/cache_utils.py:75-110 | Exactly the rows created before `now - CACHE_EXPIRY_HOURS` are deleted, with their payload files. Every other row is untouched. |
| AnalysisCache.Cache.RemoveEntry | MCP-Ghidra5/cache_utils.py:296-312 | The row is removed, and so is its payload file when the row existed. Nothing else changes. |
| AnalysisCache.Cache.LruOrder | MCP-Ghidra5/cache_utils.py:266-270 | Every row exactly once, in ascending `last_accessed` order. |
| AnalysisCache.Cache.LruVictims | MCP-Ghidra5/cache_utils.py:272-283 | The victims are the shortest least-recently-used prefix whose sizes reach `needed`, or every row when none does. A non-empty index loses at least one row. |
| AnalysisCache.Cache.CleanupLru | MCP-Ghidra5/cache_utils.py:259-294 | Exactly the victims' rows and payload files are deleted. The victims are the shortest least-recently-used prefix whose sizes reach `needed`, or all rows. |
| AnalysisCache.Cache.RemoveRows | MCP-Ghidra5/cache_utils.py:280-286 | The deletion loop removes exactly the listed rows and their payload files. |
| AnalysisCache.Cache.DirectorySize | MCP-Ghidra5/cache_utils.py:242-244 | The loop sums the size of every payload file. |
| AnalysisCache.Cache.CheckSizeLimit | MCP-Ghidra5/cache_utils.py:238-257 | Always answers true. Nothing changes when the projected total is within `MAX_CACHE_SIZE_MB`; otherwise least-recently-used rows covering the new size are evicted. |
| AnalysisCache.Cache.Get | MCP-Ghidra5/cache_utils.py:142-192 | Disabled gives None. No row gives a miss. A digest mismatch or a missing payload removes the row (and payload) and misses. A hit returns the payload and refreshes only that row's `last_accessed`. |
| AnalysisCache.Cache.Put | MCP-Ghidra5/cache_utils.py:194-236 | As written: the payload is written, the size check may evict, then the row is inserted or replaced. At most one row per key; a replaced row's old payload file stays. Returns whether the cache is enabled. |
| AnalysisCache.Cache.PutChecked | MCP-Ghidra5/cache_utils.py:194-236 | The corrected order, with the size check before the payload is written. The stored row and its payload are present afterwards. |
| AnalysisCache.Cache.ClearCache | MCP-Ghidra5/cache_utils.py:350-370 | Every row and payload file is deleted when enabled. |
| AnalysisCache.VictimsAreShortestLruPrefix | MCP-Ghidra5/cache_utils.py:272-283 | The loop's exit state is the shortest least-recently-used prefix reaching `needed`, or all rows. |
| AnalysisCache.PutThenGet | MCP-Ghidra5/cache_utils.py:142-236 | With the corrected order, a put followed by a get of the same artifact, type and parameters returns the stored result. |
| AnalysisCache.SameSecondRePutLosesResult | MCP-Ghidra5/cache_utils.py:204-229 | As written: a same-second re-put under size pressure evicts the old row, whose payload name is the new file's. The next get misses. |
| AnalysisCache.StoreOnEmpty | MCP-Ghidra5/cache_utils.py:194-236 | On an empty cache, a put within budget leaves exactly the new row, and the get reads it back. |
| TokenOptimizer.PartitionSizes | MCP-Ghidra5/cache_utils.py:392-399 | Every line goes to exactly one of the keyword and other groups. |
| TokenOptimizer.Important | MCP-Ghidra5/cache_utils.py:395-397 | Every kept line contains one of the nine keywords, case-insensitively. |
| TokenOptimizer.Others | MCP-Ghidra5/cache_utils.py:398-399 | No kept line contains a keyword. |
| TokenOptimizer.FitCountMeaning | MCP-Ghidra5/cache_utils.py:405-413 | The appended lines keep the running length under the target, and the first line left out would have reached it. |
| TokenOptimizer.KeptLinesShape | MCP-Ghidra5/cache_utils.py:385-420 | An over-budget prompt keeps every keyword line in order, followed by a prefix of the other lines that stays under `3 * max_tokens`. |
| TokenOptimizer.WithinBudgetUnchanged | MCP-Ghidra5/cache_utils.py:378-382 | A prompt whose `len // 4` is within budget comes back unchanged. |
| TokenOptimizer.AllImportantKept | MCP-Ghidra5/cache_utils.py:376-420 | A prompt whose every line carries a keyword is returned whole. |
| TokenOptimizer.Partition | MCP-Ghidra5/cache_utils.py:392-399 | The partition loop yields the keyword lines and the other lines, each in order. |
| TokenOptimizer.SumLengths | MCP-Ghidra5/cache_utils.py:403 | `sum(len(line) for line in lines)`: the total length of the lines, where the running length of the fill loop starts. |
| TokenOptimizer.Fill | MCP-Ghidra5/cache_utils.py:405-413 | The fill loop appends exactly the longest prefix of the other lines that fits. |
| TokenOptimizer.OptimizePrompt | MCP-Ghidra5/cache_utils.py:376-421 | The method computes the specified trimmed prompt. |
| Security.DangerousDirComponents | MCP-Ghidra5/security_utils.py:72-78 | The directory rule matches whole path components: `/etc` and `/etc/passwd` are rejected, `/etcfoo` is not. |
| Security.AllowSystemDirsOnlyWidens | MCP-Ghidra5/security_utils.py:44-91 | Allowing system directories only widens acceptance, and it widens it only for paths under a dangerous directory. |
| Security.SanitizePath | MCP-Ghidra5/security_utils.py:93-113 | The resolved path, exactly when it exists as a file of at most 100 MB outside the dangerous directories; never rejected on extension. |
| Security.MagicOnHeaderIsMagicOnFile | MCP-Ghidra5/security_utils.py:132-153 | Reading only the 16-byte header loses no magic match. |
| Security.MachOMagicMissed | MCP-Ghidra5/security_utils.py:139-148 | As written, a classic 32-bit Mach-O header is not recognised; the corrected magic list recognises it. |
| Security.ElfAndPeAgree | MCP-Ghidra5/security_utils.py:139-148 | Both versions recognise ELF and PE/DOS headers. |
| Security.ScanForMalwareSignatures | MCP-Ghidra5/security_utils.py:155-186 | The listed strings found in the first megabyte, each found one reported; none for an unreadable file. Order and multiplicity: ScanFromAppend, ScanFromCount, ScanReportsOnce. |
| Security.ScanFrom | MCP-Ghidra5/security_utils.py:179-181 | A listed pattern is reported exactly when its bytes occur in the window. |
| Security.Truncate | MCP-Ghidra5/security_utils.py:281-283 | Text within 4000 characters is kept; longer text becomes its first 4000 characters followed by "...". |
| Security.SanitizeQuery | MCP-Ghidra5/security_utils.py:270-285 | Empty or non-string input gives "". The result is at most 4003 characters and ends in "..." when cut. |
| Security.SanitizeQueryShape | MCP-Ghidra5/security_utils.py:270-285 | The result is empty exactly for non-string or blank input, has no whitespace at its ends, and its only whitespace is single spaces. |
| Security.SanitizeQueryIdempotent | MCP-Ghidra5/security_utils.py:270-285 | Sanitising a sanitised query changes nothing. |
| Security.ScanFromAppend | MCP-Ghidra5/security_utils.py:179-181 | Scanning a concatenated pattern list reports the first list's hits followed by the second's: hits keep list order. |
| Security.ScanFromCount | MCP-Ghidra5/security_utils.py:179-181 | A pattern is reported as often as it is listed if it occurs in the window, and never otherwise. |
| Security.ScanReportsOnce | MCP-Ghidra5/security_utils.py:155-186 | No string is reported twice, because the listed strings are distinct. |
| Security.ValidateFocusAreas | MCP-Ghidra5/security_utils.py:287-298 | The allow-listed entries, each allow-listed entry kept; [] for a non-list. It is FilterFocus of the list, so order and multiplicity follow from FilterFocusAppend and FilterFocusCount. |
| Security.FilterFocus | MCP-Ghidra5/security_utils.py:296-298 | The allow-listed string entries, each one that occurs kept. Order and multiplicity: FilterFocusAppend, FilterFocusCount. |
| Security.FilterFocusAppend | MCP-Ghidra5/security_utils.py:296-298 | Filtering a concatenation gives the filtered first part followed by the filtered second part: entries keep their order. |
| Security.FilterFocusCount | MCP-Ghidra5/security_utils.py:296-298 | An allow-listed area is kept as many times as it occurs as a string entry; any other string never. |
| Security.FocusFilterKeepsValid | MCP-Ghidra5/security_utils.py:287-298 | An allow-listed list passes unchanged. |
| Security.RequireBinaryPath | MCP-Ghidra5/security_utils.py:350-355 | Accepted exactly when `binary_path` is a string that sanitises, giving the resolved path. |
| Security.ValidateBinaryAnalysisArgs | MCP-Ghidra5/security_utils.py:345-368 | Accepted exactly when the path sanitises and any depth is allow-listed. The result holds only the resolved path, the depth (present iff given, with the given value) and the filtered focus areas (present iff given). |
| Security.ValidateGpt5QueryArgs | MCP-Ghidra5/security_utils.py:370-397 | Accepted exactly when the sanitised query is non-empty and any specialization is one of the six. The result holds the sanitised query, the sanitised context (present iff given) and the specialization (present iff given, with the given value). `preferred_model` is never copied. |
| Security.ToolArgs | MCP-Ghidra5/security_utils.py:414-483 | The tool-specific checks only add to the common fields. |
| Security.ValidateTier1BinaryArgs | MCP-Ghidra5/security_utils.py:399-485 | An unsanitisable path is rejected. An accepted result holds the resolved path, an `output_format` of text or json, and a boolean `ai_analysis`. |
| Security.ToolArgsExactly | MCP-Ghidra5/security_utils.py:412-468 | The tool-specific checks accept exactly when every inspected argument or its default passes. They then record exactly the tool's names, each with the value given or its default. |
| Security.Tier1AcceptsExactly | MCP-Ghidra5/security_utils.py:399-485 | Accepted exactly when every inspected argument or its default passes. The validated dict then holds the resolved path and exactly the inspected names, each with the value given or its default. |
| Security.Tier1MinLengthBounds | MCP-Ghidra5/security_utils.py:415-419 | An accepted `min_length` lies in 1..100, and any other value is rejected. With the other arguments valid, every value in 1..100 is accepted and kept. |
| Security.Tier1HexdumpBounds | MCP-Ghidra5/security_utils.py:448-462 | An accepted `offset` is ≥ 0 and `length` in 1..1048576, and values outside are rejected. With the other arguments valid, every offset and length within these bounds is accepted and kept. |
| Security.Tier1StringsEncoding | MCP-Ghidra5/security_utils.py:420-424 | An accepted encoding is allow-listed. |
| Security.Tier1ObjdumpEnums | MCP-Ghidra5/security_utils.py:426-438 | The objdump analysis type is allow-listed. The architecture is checked only when truthy. |
| Security.Tier1ReadelfType | MCP-Ghidra5/security_utils.py:440-446 | The readelf analysis type is allow-listed. |
| Security.Tier1HexdumpFormat | MCP-Ghidra5/security_utils.py:463-467 | The hexdump format is allow-listed. |
| Security.Tier1DefaultsAccepted | MCP-Ghidra5/security_utils.py:399-485 | A valid path alone is accepted by every tool, with text output and AI analysis on. |
| Security.StringsDefaults | MCP-Ghidra5/security_utils.py:415-424 | The `strings` defaults are a minimum length of 4 and all encodings. |
| Security.ObjdumpDefaults | MCP-Ghidra5/security_utils.py:426-438 | The `objdump` defaults are all analyses and no architecture. |
| Security.HexdumpDefaults | MCP-Ghidra5/security_utils.py:448-467 | The `hexdump` defaults are offset 0, length 512 and the canonical format. |
| Security.ValidateFileInfoArgs | MCP-Ghidra5/security_utils.py:491-501 | Accepted exactly when the common checks pass and `detailed` (default true) is a boolean. The result holds exactly the path, `output_format`, `ai_analysis` and `detailed`, each with the value given or its default. |
| Text.Strip | MCP-Ghidra5/tier1_tools.py:186 | `strip()` gives a trimmed substring and leaves trimmed text alone. |
| Text.Split | MCP-Ghidra5/binary_diff_engine.py:371 | `split(sep)` yields at least one part, none holding the separator. |
| Text.Words | MCP-Ghidra5/tier1_tools.py:537 | `split()` yields the maximal runs of non-whitespace. |
| Text.Lower | MCP-Ghidra5/tier1_tools.py:539 | `lower()` maps every character to its lower-case form, position by position. |
| Text.StripAll | MCP-Ghidra5/binary_diff_engine.py:371-372 | Each line stripped, position by position. |
| Text.SplitFirst | MCP-Ghidra5/binary_diff_engine.py:381 | `split(sep)[0]` is the text before the first separator. |
| Text.JoinSplit | MCP-Ghidra5/binary_diff_engine.py:381 | Joining the parts of a split with its separator gives the string back. |
| Text.CollapseSpaces | MCP-Ghidra5/security_utils.py:279 | `re.sub(r'\s+', ' ', s)` leaves no two adjacent whitespace characters, and its only whitespace is spaces. |
| Text.WordsJoin | MCP-Ghidra5/tier1_tools.py:537 | `split()` of single-space-joined words gives the words back. |
| Json.CanonicalIgnoresOrder | MCP-Ghidra5/cache_utils.py:119 | `json.dumps(..., sort_keys=True)` of two dicts with the same entries is the same. |
| Json.SortKeys | MCP-Ghidra5/cache_utils.py:119 | The canonical order is key-sorted and holds the same entries. |
| Ordering.AscendingOrder | MCP-Ghidra5/tier1_tools.py:115-116 | Every key exactly once, in ascending order of its attribute. |
| Tier1Cache.KeyOf | MCP-Ghidra5/tier1_tools.py:53-58 | The key holds the tool, the composite file hash (or the path hash when unreadable), and the key-sorted parameters. |
| Tier1Cache.FileIdOf | MCP-Ghidra5/tier1_tools.py:36-51 | The composite hash for a readable file; the hash of the path otherwise. |
| Tier1Cache.KeyIgnoresParamOrder | MCP-Ghidra5/tier1_tools.py:53-58 | Parameter dicts with the same entries give the same key. |
| Tier1Cache.NewestSurvives | MCP-Ghidra5/tier1_tools.py:111-132 | A file newer than every other file survives the cleanup unchanged. |
| Tier1Cache.OldestRemoved | MCP-Ghidra5/tier1_tools.py:111-132 | Deleting the oldest files keeps exactly 100, none older than a deleted one. |
| Tier1Cache.CacheManager.constructor | MCP-Ghidra5/tier1_tools.py:32-34 | An existing directory is opened as it is. |
| Tier1Cache.CacheManager.Get | MCP-Ghidra5/tier1_tools.py:60-83 | No file gives a miss. A file older than the TTL is deleted and misses. A file of age at most the TTL is returned as stored, with nothing changed. |
| Tier1Cache.CacheManager.Store | MCP-Ghidra5/tier1_tools.py:85-109 | The wrapper stamped now is written under the key, replacing any file there. The cleanup then keeps the newest files. |
| Tier1Cache.CacheManager.CleanupCache | MCP-Ghidra5/tier1_tools.py:111-132 | Nothing changes with at most 100 files. Otherwise exactly the 100 newest remain, unchanged. |
| Tier1Cache.CacheManager.RemoveFirst | MCP-Ghidra5/tier1_tools.py:122-124 | The deletion loop removes exactly the first `m` files of the order. |
| Tier1Cache.CacheManager.MtimeOrder | MCP-Ghidra5/tier1_tools.py:115-116 | Every file once, in ascending modification time. |
| Tier1Cache.StoreThenGet | MCP-Ghidra5/tier1_tools.py:60-109 | A store followed by a get of the same tool, file and parameters returns a wrapper whose `result` is what was stored. |
| Tier1Runs.Decimal | MCP-Ghidra5/tier1_tools.py:174 | `str(n)`: non-empty digits, with a leading '-' for negatives. |
| Tier1Runs.Tabulate | MCP-Ghidra5/tier1_tools.py:181-182 | The results dict has one entry per listed key the table knows, each its computed value. |
| Tier1Runs.StrippedLines | MCP-Ghidra5/tier1_tools.py:186 | The stripped non-blank lines: each non-empty and trimmed. |
| Tier1Runs.StringsAllEncodings | MCP-Ghidra5/tier1_tools.py:179-198 | "all" runs the three encodings. |
| Tier1Runs.StringsOneEncoding | MCP-Ghidra5/tier1_tools.py:179-198 | A known encoding runs alone; an unknown encoding produces no entry. |
| Tier1Runs.StringsEntryOutcome | MCP-Ghidra5/tier1_tools.py:185-197 | An entry is an extraction exactly when the command succeeded. A failure reports the encoding and the error output, with count 0. |
| Tier1Runs.ExtractedKeeps | MCP-Ghidra5/tier1_tools.py:186-190 | `count` is the number of non-blank lines. The stored list is the first 1000, each stripped and non-empty. |
| Tier1Runs.ObjdumpAllAnalyses | MCP-Ghidra5/tier1_tools.py:336-346 | "all" runs all six analyses. |
| Tier1Runs.ObjdumpOneAnalysis | MCP-Ghidra5/tier1_tools.py:346-370 | A known type runs alone and an unknown one produces no entry. Every entry is its command's outcome. |
| Tier1Runs.ObjdumpArchitectureFlag | MCP-Ghidra5/tier1_tools.py:350-355 | The command carries `-m architecture` exactly when an architecture is given. |
| Tier1Runs.ReadelfAllAnalyses | MCP-Ghidra5/tier1_tools.py:415-425 | "all" runs all six analyses. |
| Tier1Runs.ReadelfOneAnalysis | MCP-Ghidra5/tier1_tools.py:425-444 | A known type runs alone and an unknown one produces no entry. Every entry is its command's outcome. |
| Tier1Runs.HexdumpFormats | MCP-Ghidra5/tier1_tools.py:494-516 | An unknown format fails with an error and runs nothing. A known format succeeds exactly when its command does. |
| Tier1Runs.HexPatternsOfDumpLine | MCP-Ghidra5/tier1_tools.py:523-577 | On well-formed dump lines, `null_bytes` counts exactly the zero bytes, and at most one signature is reported. |
| Tier1Runs.FileResults | MCP-Ghidra5/tier1_tools.py:277-296 | One entry per `file` command, each that command's outcome. |
| Tier1Runs.RunCached | MCP-Ghidra5/tier1_tools.py:158-171 | An unreadable file raises before the cache is consulted. A fresh cached wrapper is served as is. Otherwise the computed result is stored and returned. |
| Tier1Analysis.MatchingCounts | MCP-Ghidra5/tier1_tools.py:226-251 | A category list keeps each string of that category as often as it occurs, and no other string. |
| Tier1Analysis.Take | MCP-Ghidra5/tier1_tools.py:189 | `xs[:n]`: a prefix of at most `n` elements, the whole list when it is short enough. |
| Tier1Analysis.FieldIsCappedMatching | MCP-Ghidra5/tier1_tools.py:212-257 | Each category is the first ten of its matches among the first hundred strings. |
| Tier1Analysis.PatternsSound | MCP-Ghidra5/tier1_tools.py:212-257 | Every listed string is one of the first hundred and belongs to its category. No category lists more than ten. |
| Tier1Analysis.PatternsDisjoint | MCP-Ghidra5/tier1_tools.py:226-251 | No string is listed under two categories (url > path > crypto > suspicious > api > error). |
| Tier1Analysis.PatternsComplete | MCP-Ghidra5/tier1_tools.py:212-257 | When at most ten of the first hundred fall in a category, all of them are listed. |
| Tier1Analysis.MatchingAppend | MCP-Ghidra5/tier1_tools.py:226-251 | Category lists keep input order. |
| Tier1Analysis.PatternsIgnoreTail | MCP-Ghidra5/tier1_tools.py:226 | Strings after the hundredth never affect the result. |
| Tier1Analysis.KeylogIsNeverSuspicious | MCP-Ghidra5/tier1_tools.py:236-245 | A string naming a keylogger always falls in crypto first (it contains "key"), never in suspicious. |
| Tier1Analysis.NullBytes | MCP-Ghidra5/tier1_tools.py:544 | `hex_bytes.count(0)`. |
| Tier1Analysis.TokenBytes | MCP-Ghidra5/tier1_tools.py:538-540 | At most one byte per token, from the two-character hex tokens. |
| Tier1Analysis.HexPairRoundTrip | MCP-Ghidra5/tier1_tools.py:539-540 | A byte printed as two hex digits is a hex token that parses back to itself. |
| Tier1Analysis.MagicFrom | MCP-Ghidra5/tier1_tools.py:573-575 | Every reported signature is a label of the table, at most one per entry. |
| Tier1Analysis.AtMostOneMatch | MCP-Ghidra5/tier1_tools.py:573-575 | A table whose magics begin with pairwise different characters reports at most one match. |
| Tier1Analysis.HexString | MCP-Ghidra5/tier1_tools.py:564 | Two lower-case hex digits per byte. |
| Tier1Analysis.DumpLineRoundTrip | MCP-Ghidra5/tier1_tools.py:535-540 | The bytes of a dump line are read back exactly. |
| Tier1Analysis.HexPrefix | MCP-Ghidra5/tier1_tools.py:564-575 | The hex text of the bytes starts with a magic's hex text exactly when the bytes start with the magic. |
| Tier1Analysis.AtMostOneMagic | MCP-Ghidra5/tier1_tools.py:565-575 | At most one signature is reported. |
| Tier1Analysis.ElfMagicDetected | MCP-Ghidra5/tier1_tools.py:565-575 | "ELF" is reported exactly when the bytes start with 7f 45 4c 46. |
| Tier1Summaries.ObjdumpSummaryKeys | MCP-Ghidra5/tier1_tools.py:377-393 | Which counts each analysis gets: `sections`, `relocs`, `dynamic` and unknown types get an empty summary. |
| Tier1Summaries.ObjdumpCountsBounded | MCP-Ghidra5/tier1_tools.py:382-391 | Every count is at most the number of lines, and external symbols are among the symbols. |
| Tier1Summaries.HeaderFieldAbsent | MCP-Ghidra5/tier1_tools.py:456-461 | A header field is absent exactly when no line sets it. |
| Tier1Summaries.HeaderFields | MCP-Ghidra5/tier1_tools.py:456-461 | The headers summary holds at most `class` and `machine`. |
| Tier1Summaries.HeaderFieldFromLastLine | MCP-Ghidra5/tier1_tools.py:456-461 | A field holds the value set by the last line that sets it. |
| Tier1Summaries.HeaderUpdateKeys | MCP-Ghidra5/tier1_tools.py:458-461 | A line with `Class:` sets only the class; `Machine:` sets the machine only on lines without `Class:`. |
| Tier1Summaries.ReadelfCountsBounded | MCP-Ghidra5/tier1_tools.py:451-471 | Section and symbol counts are bounded by the lines, and other types get an empty summary. |
| DiffParsing.ParseStringsMembers | MCP-Ghidra5/binary_diff_engine.py:287-294 | For `_parse_strings_output`, which `comprehensive_diff` does not call: a string is kept exactly when it is a stripped line of the output that passes the filter. |
| DiffParsing.ParseStringsShape | MCP-Ghidra5/binary_diff_engine.py:287-294 | Kept strings are stripped, longer than three characters and not `[` headings. |
| DiffParsing.Tier1Strings | MCP-Ghidra5/binary_diff_engine.py:296-303 | The stored strings of every encoding entry, and nothing else. |
| DiffParsing.Tier1StringsBounded | MCP-Ghidra5/binary_diff_engine.py:296-303 | At most a thousand strings per encoding reach the engine. |
| DiffParsing.FunctionNameSpec | MCP-Ghidra5/binary_diff_engine.py:375-383 | A function's name is the text after the first `<`, up to the next `>` (or `<`, or the end of the line). |
| DiffParsing.FunctionsWellFormed | MCP-Ghidra5/binary_diff_engine.py:365-394 | Every function found has a non-empty instruction list. |
| DiffParsing.PreambleIgnored | MCP-Ghidra5/binary_diff_engine.py:365-394 | Lines before the first header contribute nothing. |
| DiffParsing.LastBlockWins | MCP-Ghidra5/binary_diff_engine.py:370-392 | A later block of the same name overwrites the earlier one; a function maps to its last block's instruction lines. |
| DiffParsing.FileTypeOfFileResults | MCP-Ghidra5/binary_diff_engine.py:484-490 | The file type is the first line of the stripped `file` output when the command succeeded, and "" otherwise. |
| DiffParsing.HeaderDiffsFrom | MCP-Ghidra5/binary_diff_engine.py:464-479 | Only differing pairs are reported, with 1-based line numbers in increasing order. |
| DiffParsing.HeaderDiffsComplete | MCP-Ghidra5/binary_diff_engine.py:464-479 | Every differing pair is reported. |
| DiffParsing.SomeDiffIff | MCP-Ghidra5/binary_diff_engine.py:471-481 | Some pair is reported exactly when some pair of stripped lines differs. |
| DiffParsing.StrippedHead | MCP-Ghidra5/binary_diff_engine.py:464-466 | At most the first twenty lines, each stripped. |
| DiffParsing.SectionsChangedIff | MCP-Ghidra5/binary_diff_engine.py:459-482 | `sections_changed` holds exactly when the compared lines differ. |
| DiffParsing.ElfHeadersReflexive | MCP-Ghidra5/binary_diff_engine.py:459-482 | A listing compared with itself shows no difference. |
| DiffParsing.MetadataAsWrittenNeverSeesHeaders | MCP-Ghidra5/binary_diff_engine.py:449-451 | As written, no pair of readelf results ever shows a header difference. |
| DiffParsing.ClassChangeMissedAsWritten | MCP-Ghidra5/binary_diff_engine.py:449-482 | As written, a 32-bit versus 64-bit pair reports no header change; the corrected diff reports line 1. |
| DiffParsing.MetadataDiffSpec | MCP-Ghidra5/binary_diff_engine.py:404-457 | A file-type change is reported exactly when the `file` first lines differ. A header change is reported exactly when one of the first twenty `readelf -h` lines differs. |
| DiffParsing.MetadataDiffReflexive | MCP-Ghidra5/binary_diff_engine.py:404-457 | A binary compared with itself shows no metadata change. |
| DiffParsing.MetadataDiffErrors | MCP-Ghidra5/binary_diff_engine.py:455-457 | A tier-1 call that raised becomes the metadata diff's error. |
| DiffLevels.ParseObjdumpFunctions | MCP-Ghidra5/binary_diff_engine.py:365-394 | The parsing loop computes the specified function map. |
| DiffLevels.ParseLines | MCP-Ghidra5/binary_diff_engine.py:371-388 | The loop over the stripped lines computes the specified function map. |
| DiffLevels.ParseLine | MCP-Ghidra5/binary_diff_engine.py:372-388 | One turn of the loop is one step of the specified parser. |
| DiffLevels.ParseTier1Objdump | MCP-Ghidra5/binary_diff_engine.py:396-402 | The function map of the disassembly entry, or empty. |
| DiffLevels.MismatchesBelowSound | MCP-Ghidra5/binary_diff_engine.py:206-224 | Only differing offsets are listed, strictly increasing, with both bytes. |
| DiffLevels.MismatchesBelowComplete | MCP-Ghidra5/binary_diff_engine.py:206-224 | Every differing offset is listed. |
| DiffLevels.MismatchesBelowSpec | MCP-Ghidra5/binary_diff_engine.py:206-224 | Exactly the differing offsets, each once, increasing, with the two bytes there. |
| DiffLevels.ByteDiffCount | MCP-Ghidra5/binary_diff_engine.py:203-224 | `byte_diff_count` is the mismatches in the common prefix plus the length difference. |
| DiffLevels.NoMismatchIffEqual | MCP-Ghidra5/binary_diff_engine.py:203-224 | No mismatch exactly when the contents are equal. |
| DiffLevels.MismatchCountBelow | MCP-Ghidra5/binary_diff_engine.py:203-224 | The scan count below `n` is the common-prefix mismatches plus the offsets past the shorter content. |
| DiffLevels.ScanBytes | MCP-Ghidra5/binary_diff_engine.py:206-224 | The loop counts every differing offset and records the first min(count, 1000). |
| DiffLevels.FileLevelDiff | MCP-Ghidra5/binary_diff_engine.py:164-238 | The method computes the specified file-level result. |
| DiffLevels.FileLevelOfReadable | MCP-Ghidra5/binary_diff_engine.py:164-238 | Readable files are identical exactly when equal. `size_diff` is n2−n1. The count is zero exactly for identical files. At most 1000 real differing positions are listed. |
| DiffLevels.FileLevelOfUnreadable | MCP-Ghidra5/binary_diff_engine.py:152-162 | Two unreadable files both hash to "" and are reported identical. |
| DiffLevels.ListSet | MCP-Ghidra5/binary_diff_engine.py:275-276 | `list(s)[:n]`: distinct members of the set, min(n, \|s\|) of them. |
| DiffLevels.StringLevelDiff | MCP-Ghidra5/binary_diff_engine.py:240-285 | A raised tier-1 call gives its error. Otherwise added is S2\S1 and removed is S1\S2, each at most 100, and common is \|S1∩S2\|. |
| DiffLevels.StringLevelCounts | MCP-Ghidra5/binary_diff_engine.py:264-277 | Added and removed never overlap, and every distinct string of S1 is either common or removed. |
| DiffLevels.CollectChanged | MCP-Ghidra5/binary_diff_engine.py:336-344 | The loop collects exactly the common names whose instruction lists differ. |
| DiffLevels.FunctionLevelDiff | MCP-Ghidra5/binary_diff_engine.py:305-363 | Errors propagate. Added, removed and changed are each at most 50, changed entries being common functions whose instructions differ. |
| DiffLevels.ChangedExactly | MCP-Ghidra5/binary_diff_engine.py:329-356 | When at most 50 changed, a function is listed as changed exactly when both have it and its instructions differ. |
| DiffEngine.ValidateInputs | MCP-Ghidra5/binary_diff_engine.py:94-131 | Corrected validation accepts exactly when both binaries are valid paths, at most 100 MB, and readable. Otherwise the first failing check, path before size before read and binary1 before binary2, is reported. |
| DiffEngine.ValidateInputsSafe | MCP-Ghidra5/security_utils.py:44-91 | Corrected validation accepts exactly when both paths pass the `is_safe_path` rule and are readable. |
| DiffEngine.ValidationFinding | MCP-Ghidra5/binary_diff_engine.py:36-56 | A readable one-byte file in `/tmp` is accepted by the corrected validation and rejected as written. |
| DiffEngine.TypesOrDefault | MCP-Ghidra5/binary_diff_engine.py:511-512 | The requested types, defaulting to file, strings, functions and metadata. |
| DiffEngine.DiffParamsAsWritten | MCP-Ghidra5/binary_diff_engine.py:515-519 | The parameter dict as written, with `binary2`, `diff_types` and `ai_analysis`. Its keys are distinct. |
| DiffEngine.DiffParams | MCP-Ghidra5/binary_diff_engine.py:133-150 | The corrected parameter dict adds the second binary's content hash. |
| DiffEngine.StaleReportAsWritten | MCP-Ghidra5/binary_diff_engine.py:515-568 | Under the as-written key, a report stored for two binaries is served again after the second binary's content changed. The report is stored with the corrected `StoreCorrected`, since the as-written method never stores one. |
| DiffEngine.DiffKeysDiffer | MCP-Ghidra5/binary_diff_engine.py:133-150 | With the second hash in the key, different contents give different keys. |
| DiffEngine.FreshReportCorrected | MCP-Ghidra5/binary_diff_engine.py:515-568 | With the corrected key, the stored report is not served after the second binary changed. |
| DiffEngine.Fetch | MCP-Ghidra5/cache_utils.py:142-192 | A lookup returns what the table holds for the key; a hit stays found and no row is added. |
| DiffEngine.StoreCorrected | MCP-Ghidra5/cache_utils.py:194-236 | With the corrected put: after a store, an enabled cache finds the result, and the only row added is its own. |
| DiffEngine.RunLevelsCorrected | MCP-Ghidra5/binary_diff_engine.py:545-559 | The results hold exactly the requested types, each the outcome of its comparison, with the corrected metadata comparison. |
| DiffEngine.PerformCorrected | MCP-Ghidra5/binary_diff_engine.py:532-564 | The report holds the requested comparisons (corrected metadata) and, when asked for, the AI answer. |
| DiffEngine.ReportValue | MCP-Ghidra5/binary_diff_engine.py:532-541 | The report dict is non-empty (so it is always a cache hit) and starts with `analysis_type`. |
| DiffEngine.OutcomeValue | MCP-Ghidra5/binary_diff_engine.py:528-574 | A rejection is `{"error": msg}`; a report is its dict. |
| DiffEngine.BinaryDiffEngine.constructor | MCP-Ghidra5/binary_diff_engine.py:68-75 | The cache is used exactly when caching is on. |
| DiffEngine.BinaryDiffEngine.ComprehensiveDiffAsWritten | MCP-Ghidra5/binary_diff_engine.py:492-530 | As written, a non-empty dict cached under the path-only key is returned as is. Every other call is rejected with the `NameError` validation message, and no row is added. |
| DiffEngine.DiffTwiceAsWritten | MCP-Ghidra5/binary_diff_engine.py:521-530 | As written, a pair whose report is not cached is rejected on the first call and again on the second. |
| DiffEngine.BinaryDiffEngine.ComprehensiveDiffCorrected | MCP-Ghidra5/binary_diff_engine.py:492-574 | In the corrected engine, a non-empty cached dict is returned as is. Invalid inputs give their error and store nothing new. Otherwise the report holds exactly the requested comparisons, and an enabled cache then serves it. |
| DiffEngine.BinaryDiffEngine.DiffKeyedCorrected | MCP-Ghidra5/binary_diff_engine.py:521-568 | The same corrected outcome and cache guarantees, over any parameter dict. |
| DiffEngine.DiffTwiceCorrected | MCP-Ghidra5/binary_diff_engine.py:521-525 | In the corrected engine, with the cache on and valid inputs, repeating a call returns the first call's dict from the cache. |

## Left out

- HTTP adapter bodies (`_query_openai` … `_query_ollama`): sessions, headers and JSON extraction. A `Wire` function gives each request's reply, and only the request fields that matter are modelled (model, messages, system, max_tokens).
- `_check_ollama_model`: the curl probe is the set of installed model names it reports.
- Floating-point values: the `_calculate_cost` arithmetic, `calculate_cost_estimate`, similarity scores, `printable_ratio`, the entropy estimate, and the cost strings of `list_providers`. Only "a free model costs 0.0" is stated, by `AiProviders.EstimatedCost`.
- `list_providers` and `get_model_status`: status formatting over float prices and emoji, with no decision logic.
- `get_cache_stats`: a read-only report of table counts and directory size, with no decision logic.
- The `cached_analysis` decorator: an async wrapper whose `binary_path` is unbound when the first argument is not a dict.
- SQLite, pickle, the payload directory and `Path.resolve`. These become maps. A database or I/O exception, caught and logged by every cache operation, is not modelled.
- Clocks: `datetime.now` and `time.time` are a parameter, and timestamp fields in returned dicts are left out.
- SHA-256 and MD5: file digests come from a map, and a hash of parameters is taken to be injective.
- Subprocess calls (`run_command`): an oracle from argument vector to outcome. Timeouts are part of that oracle.
- `format_output_as_json` and `format_output_as_text`: report templating.
- `_ai_security_analysis` and `_build_ai_analysis_prompt`: prompt text. The AI answer is an input of `comprehensive_diff`.
- `generate_diff_hash`: `comprehensive_diff` computes it (line 519) but never uses the result, so it is not modelled. It appears only as the evident intent of the cache-key finding.
- DiffLevels.StringLevelDiff and DiffLevels.FunctionLevelDiff: the "Failed to extract strings" and "Failed to disassemble binaries" branches (lines 256-257, 321-322) are not modelled. A `run_*_analysis` call either raises or returns a non-empty dict, so these branches cannot be taken.
- The engine's temporary directory and its cleanup.
- `main` of the diff engine, and all of `ghidra_gpt5_mcp.py`: tool schemas and dispatch, which duplicate the router's logic.
- `SandboxEnvironment` and `secure_binary_analysis`: file copying into temporary directories.
- async/await: everything is modelled sequentially.
- DiffEngine.BinaryDiffEngine.ComprehensiveDiffCorrected: the outer `except` (lines 572-574) is not modelled, because no modelled step raises. Tier-1 failures reach it as error entries inside the levels.
- DiffEngine.ValidateInputs: paths are taken as already resolved. The file system view resolves each path to itself.
- DiffLevels.ListSet and DiffLevels.StringLevelDiff: Python set iteration order is not modelled. Listings are any distinct members of the right size, so which 100 (or 50) items appear is unspecified.
- DiffLevels.FunctionLevelDiff: `objdump -d -m auto` is run as the tier-1 tool builds it, and its output is only as good as the oracle.
- Text.IsDigit: only ASCII digits are counted, where Python's `isdigit` also accepts other Unicode digits.
- Text.Lower: only ASCII letters are lower-cased. This matters only for non-ASCII text, which no modelled comparison depends on.
- AnalysisCache.Cache.Get: the unpickling step cannot fail in the model.
- DiffEngine.BinaryDiffEngine.ComprehensiveDiffCorrected, DiffEngine.BinaryDiffEngine.DiffKeyedCorrected and DiffEngine.DiffTwiceCorrected describe the engine with all three diff-engine findings corrected. As written, every cache miss is rejected; `ComprehensiveDiffAsWritten` states that behaviour.
- DiffEngine.RunLevelsCorrected and DiffEngine.PerformCorrected use the corrected metadata comparison `MetadataDiff`. The as-written comparison is reached only after a validation that always fails, so it is stated on its own (`MetadataAsWrittenNeverSeesHeaders`).
- DiffEngine.StoreCorrected uses the corrected put `PutChecked`. The as-written `cache_result` is never reached by `comprehensive_diff` as written, and is modelled by `AnalysisCache.Cache.Put`.
- Security validators: the `Err` messages keep the fixed text of each `SecurityError` but drop the offending value that the source interpolates into it.
- AnalysisCache.Cache.constructor: `MAX_CACHE_SIZE_MB` and `CACHE_EXPIRY_HOURS` are taken as the integers the environment supplies. Parsing them with `int()`, and its failure on malformed text, is not modelled.
- AiProviders.AIModelManager.QueryModel: an id missing from the registry, possible only for an environment-supplied default, is returned as an error rather than a `KeyError` exception.

## Findings

| source | as written | input that shows it | evidently intended | confidence | as-written member | corrected member |
|---|---|---|---|---|---|---|
| MCP-Ghidra5/security_utils.py:139-148 | The Mach-O and Java magics are written `b'\xfeedface'` etc., which is byte 0xFE followed by ASCII "edface". | A 32-bit Mach-O header FE ED FA CE … | Real Mach-O and Java class headers are recognised as executables. | not executed | Security.MachOMagicMissed | Security.MachOMagicMissed |
| MCP-Ghidra5/cache_utils.py:204-229 | The payload name has one-second resolution, and the size check runs after the payload is written. A same-second re-put under size pressure evicts the old row, whose payload name is the new file's, so the new row dangles. | Two puts of one key within a second, the second exceeding the size limit | A put followed by a get returns what was stored. | not executed | AnalysisCache.SameSecondRePutLosesResult | AnalysisCache.PutThenGet |
| MCP-Ghidra5/binary_diff_engine.py:449-482 | `_compare_elf_headers` reads `output` at the top level of each readelf result, but `run_readelf_analysis` keeps the listing under `results["headers"]["output"]`. Both sides are therefore "" and no header difference is ever reported. | A 32-bit and a 64-bit ELF of the same file type | Header lines are compared and a class change is reported. | not executed | DiffParsing.MetadataAsWrittenNeverSeesHeaders | DiffParsing.MetadataDiffSpec |
| MCP-Ghidra5/binary_diff_engine.py:94-131 | `validate_inputs` calls `validate_binary_path` and `check_file_size`, which `security_utils` does not define. The `NameError` is caught and every input is rejected with "Validation error: …". `comprehensive_diff` therefore rejects every call the cache does not answer (`DiffTwiceAsWritten`). | A readable one-byte file `/tmp/a` compared with itself | Two safe, readable binaries of at most 100 MB are accepted. | not executed | DiffEngine.ValidationFinding | DiffEngine.ValidateInputsSafe |
| MCP-Ghidra5/binary_diff_engine.py:515-525 | The cache key covers binary1's content and binary2's path only. The defect is latent: as written the undefined validator (row above) stops every run before the store, so no report is ever stored. It shows once validation is fixed, or when the shared cache already holds a report under that key; the lemma stores through the corrected store. | Store a report (corrected store), change binary2's bytes, diff again | The key covers both binaries' contents, as the unused `generate_diff_hash` does. | not executed | DiffEngine.StaleReportAsWritten | DiffEngine.FreshReportCorrected |
