# Moltbot daily report, modelled in Dafny

A model of the daily operations report that Moltbot builds for the
PelangiManager capsule hostel (`scripts/moltbot-daily-report.py`). It covers
three parts of the script.

- `MCPClient.call_tool`: the JSON-RPC `tools/call` payload and its request
  id, and how the response envelope is turned into the value the report
  works on. That means the error marker for a transport failure, the
  `"MCP Error"` exception, and the double decode of `content[0].text` with
  its `{"raw": text}` fallback.
- The five section methods of `ReportGenerator` and `generate_report`. The
  `"error" in data` guards follow Python's `in`: key membership on a dict,
  element membership on a list, substring search on a str, and a TypeError
  on anything else.
- The run control of `generate_and_send_report`:
  - at most three health probes, five seconds apart;
  - an alert, then an abort, when all three fail;
  - the backup file written before any delivery;
  - every configured channel tried in turn, with the run delivered when any
    of them accepts.

Python values are the `Json` datatype of `python_values.dfy`. Python
exceptions are the `Raise` case of `Outcome`. The outside world is made of
parameters:

- the HTTP POST and `json.loads` (`McpClient.Backend`);
- the health probe outcomes, the channels' answers and the formatted clock
  readings (`RunControl.World`).

A run is recorded as a trace of its effects: probes, pauses, tool-call
posts, the backup write and the channel sends.

| file | module | source |
|---|---|---|
| `python_values.dfy` | `PyValues` | Python built-ins the script relies on: `in`, `get`, `[]`, `len`, `str()`, `join`, `rstrip` |
| `mcp_client.dfy` | `McpClient` | `MCPClient.call_tool` |
| `sections.dfy` | `Sections` | the five `_generate_*_section` methods |
| `report.dfy` | `Report` | `ReportGenerator.generate_report` |
| `run_control.dfy` | `RunControl` | `generate_and_send_report` |
| `examples.dfy` | `Examples` | worked inputs for the section methods |

`call_tool` does not turn every failure into an error marker. A dict
envelope with an `"error"` key raises `Exception("MCP Error: …")` (scripts/moltbot-daily-report.py:63).
The `except` clause at line 77 catches only `requests` exceptions, so this
exception leaves `call_tool`, and then `generate_report` and
`generate_and_send_report` as well. The same holds for:

- a TypeError from `"error" in x` on a number, None or a bool;
- a KeyError from `c["number"]`;
- a TypeError from `', '.join` over non-str numbers;
- a TypeError from the final `"\n".join` when the maintenance tool's `raw`
  value is not a str.

The model returns `Raise` in all these cases. `RunOnce` then ends in
`Crashed`, with no backup and no delivery.

## Model

| member | source | states |
|---|---|---|
| `PyValues.Contains` | scripts/moltbot-daily-report.py:142 | `"error" in x` is key membership on a dict, element membership on a list, substring search on a str, and a TypeError on None, a bool or a number |
| `McpClient.CallTool` | scripts/moltbot-daily-report.py:38-50 | every call raises the client's request id by exactly one, before sending; the payload carries the new id; the result is what the backend's answer normalises to |
| `McpClient.RequestIdsAreConsecutive` | scripts/moltbot-daily-report.py:40-49 | two calls in a row on one client carry ids `n+1` and `n+2` |
| `McpClient.ErrorMarker` | scripts/moltbot-daily-report.py:77-79 | the marker returned for a `requests` exception satisfies the callers' `"error" in data` guard |
| `McpClient.TransportFailureIsMarker` | scripts/moltbot-daily-report.py:77-79 | a transport failure never raises out of `call_tool`: the caller gets a value holding `"error"` |
| `McpClient.Normalise` | scripts/moltbot-daily-report.py:62-75 | a dict envelope with `"error"` raises `MCP Error: <str of the value>`; a list or str envelope containing `"error"` fails with a TypeError on `result['error']`; a scalar envelope fails on `in`; a list or str envelope holding `"result"` fails on `result["result"]`; the envelope is returned unchanged when it has neither `"error"` nor `"result"`, when its `result` dict has no `content`, and when that `content` is falsy |
| `McpClient.ResultOfOtherShape` | scripts/moltbot-daily-report.py:66-75 | a dict envelope whose `result` is a list or str is returned unchanged when that value lacks `"content"` and fails with a TypeError on `result["result"]["content"]` when it holds it; a None, bool or number `result` fails on `"content" in` |
| `McpClient.ContentOfOtherShape` | scripts/moltbot-daily-report.py:67-70 | a truthy `content` that is not a list of dicts raises: a dict on `content[0]` (KeyError), a str on `.get` of its first character (AttributeError), a bool or number on `len` (TypeError), a list whose first item is not a dict on `.get` (AttributeError), and a first item whose `text` is not a str on `json.loads` (TypeError) |
| `McpClient.DecodeText` | scripts/moltbot-daily-report.py:69-73 | a decodable text gives its decoded value, an undecodable one gives `{"raw": text}`, and a non-str text raises a TypeError |
| `McpClient.ContentIsDecoded` | scripts/moltbot-daily-report.py:66-73 | for an envelope whose `result.content` is a non-empty list starting with a dict, `call_tool` returns the decode of `content[0].text`, or `{"raw": text}` when the text is not JSON |
| `McpClient.MissingTextIsEmptyDict` | scripts/moltbot-daily-report.py:69 | a first content item without `text` decodes the default `"{}"`, so the result is an empty dict |
| `McpClient.EmptyContentReturnsEnvelope` | scripts/moltbot-daily-report.py:66-75 | an empty `content` list is falsy, so the whole envelope is returned |
| `Sections.Rule` | scripts/moltbot-daily-report.py:103 | the rule is `n` copies of `═` |
| `Sections.OccupancySection` | scripts/moltbot-daily-report.py:138-155 | an error result gives the placeholder; otherwise the six lines are title, rule, total, occupied, available and rate in that order, a missing figure shows as 0; a list or str result fails on `.get` |
| `Sections.OccupancyLines` | scripts/moltbot-daily-report.py:145-155 | read back line by line, the section of a dict without `"error"` is exactly six lines, and the third to sixth carry the total, occupied, available and rate figures, a missing one as 0, whenever no figure prints with a line break |
| `Sections.TagOf` | scripts/moltbot-daily-report.py:168-169 | a capsule belongs to back, middle or front exactly when its `section` is that string; a missing section is dropped; a non-dict capsule raises AttributeError |
| `Sections.TagOfDropsOthers` | scripts/moltbot-daily-report.py:168-170 | for a dict capsule, a present `section` that is another str, None, a bool or a number drops the capsule; only a list or dict section raises, with a TypeError, being unhashable |
| `Sections.Classify` | scripts/moltbot-daily-report.py:164-170 | the grouping loop succeeds exactly when every capsule's section can be read; each bucket then holds exactly the capsules of that section in input order |
| `Sections.ClassifyRaisesFirst` | scripts/moltbot-daily-report.py:166-169 | a grouping loop that raises does so with the exception of the first capsule whose section cannot be read, every earlier capsule having been read |
| `Sections.TaggedMembers` | scripts/moltbot-daily-report.py:166-170 | the reference bucket of a tag holds exactly the capsules carrying that tag |
| `Sections.OccupiedAvailablePartition` | scripts/moltbot-daily-report.py:178-179 | the Occupied and Available lists split the group's numbers between them, each in input order, and together have one entry per capsule |
| `Sections.NumberList` | scripts/moltbot-daily-report.py:183-184 | an empty list shows `None`; a non-empty one joins exactly when every number is a str, and the text is then the numbers joined by `", "` |
| `Sections.GroupLines` | scripts/moltbot-daily-report.py:178-185 | a group contributes its header with the group size, the Occupied line, the Available line and a blank line |
| `Sections.GroupBlocks` | scripts/moltbot-daily-report.py:174-185 | the loop contributes one block per non-empty bucket, in the order back, middle, front |
| `Sections.GroupBlocksRendered` | scripts/moltbot-daily-report.py:174-185 | the k-th block is exactly the four lines rendered from the k-th non-empty bucket, so it is headed by that bucket's title and size |
| `Sections.GroupBlocksSucceed` | scripts/moltbot-daily-report.py:174-185 | the loop finishes without raising exactly when every non-empty bucket renders |
| `Sections.Numbers` | scripts/moltbot-daily-report.py:178-179 | the comprehension finishes exactly when every capsule is a dict and every capsule it selects has a `"number"`; otherwise it raises AttributeError or KeyError |
| `Sections.NumbersAreSelected` | scripts/moltbot-daily-report.py:178-179 | the numbers listed are those of the capsules the filter selects, one per selected capsule, in input order |
| `Sections.CapsuleSection` | scripts/moltbot-daily-report.py:157-187 | an error result, a dict or a str gives the placeholder; a list gives the heading and the blocks, stripped of trailing whitespace, exactly when grouping and rendering succeed |
| `Sections.GuestCount` | scripts/moltbot-daily-report.py:196-201 | the count is `len(data)` of a wrapper with `data`, the length of a bare list, and 0 for any other shape |
| `Sections.GuestSection` | scripts/moltbot-daily-report.py:189-205 | an error result gives the placeholder; otherwise the block shows the guest count |
| `Sections.ListAndWrapperAgree` | scripts/moltbot-daily-report.py:196-201 | a bare list and `{"data": list}` show the same count, unless the bare list holds the string `"error"` |
| `Sections.GuestLine` | scripts/moltbot-daily-report.py:222-225 | one guest line, with `Unknown`, `N/A` and `N/A` for a missing name, capsule and date; a non-dict guest raises |
| `Sections.GuestLines` | scripts/moltbot-daily-report.py:221-225 | one line per guest, failing with AttributeError exactly when some guest is not a dict |
| `Sections.GuestLinesEach` | scripts/moltbot-daily-report.py:221-225 | the i-th line is the line of the i-th guest, so the lines keep input order |
| `Sections.OverdueSection` | scripts/moltbot-daily-report.py:207-227 | error gives the placeholder; an empty list, dict or str gives the "no overdue guests" message; a non-empty list gives the count header and the guest lines; a non-empty dict or str raises AttributeError |
| `Sections.NoOverdueIsNotUnavailable` | scripts/moltbot-daily-report.py:211-215 | the empty-result message and the error placeholder are different texts |
| `Sections.OverdueOneLinePerGuest` | scripts/moltbot-daily-report.py:217-227 | split at line breaks, a non-empty overdue section is its four header lines followed by exactly one line per guest, in input order |
| `Sections.MaintenanceSection` | scripts/moltbot-daily-report.py:229-242 | error gives the placeholder; `raw` of a dict is passed through as it is; a str is passed through; anything else gives the "no active issues" block |
| `Sections.RawTextPassesThrough` | scripts/moltbot-daily-report.py:236-238 | the `{"raw": text}` fallback reaches the report verbatim, even when the text mentions "error" |
| `Sections.ErrorWordHidesText` | scripts/moltbot-daily-report.py:233-234 | a bare maintenance text containing "error" anywhere is replaced by the placeholder |
| `Report.Collect` | scripts/moltbot-daily-report.py:106-129 | the sections are called in order on one client, one request each, and the request id advances by one per call; the first exception stops the sequence |
| `Report.CollectSections` | scripts/moltbot-daily-report.py:106-129 | each collected section is what its own call rendered to; on an exception, every earlier call rendered and the last call made is the one that raised |
| `Report.CollectRequests` | scripts/moltbot-daily-report.py:40-49 | the payloads posted are those of the first tools in order, with request ids counting up from the client's |
| `Report.CollectStep` | scripts/moltbot-daily-report.py:107-108 | a step of the sequence is exactly `call_tool` followed by the section method, and later tools run on the client `call_tool` leaves behind |
| `Report.Payloads` | scripts/moltbot-daily-report.py:42-50 | the i-th payload names the i-th tool and carries request id `last + i + 1` |
| `Report.GenerateReport` | scripts/moltbot-daily-report.py:97-136 | a report makes between one and five calls, and exactly five when it is produced; the client's id advances by the number of calls |
| `Report.ReportLayout` | scripts/moltbot-daily-report.py:101-136 | a report exists exactly when every section rendered to a str; it is then the banner and rule, a blank line, the five sections separated by blank lines, a blank line, the rule, the generation time and the signature |
| `Report.Render` | scripts/moltbot-daily-report.py:132-136 | the joined report exists exactly when every section is a str, and is otherwise a TypeError; it is then the banner and rule, a blank line, the sections separated by blank lines, a blank line, the rule, the generation time and the signature |
| `Report.LinesAllStr` | scripts/moltbot-daily-report.py:136 | the report lines join exactly when every section is a str |
| `Report.SpacedJoin` | scripts/moltbot-daily-report.py:107-129 | the sections, each followed by its blank line and joined by newlines, are the sections separated by blank lines plus one newline |
| `Report.FailedCallShowsPlaceholder` | scripts/moltbot-daily-report.py:77-79 | a tool call that fails in transport makes its section show that section's placeholder |
| `RunControl.Alerting` | scripts/moltbot-daily-report.py:355-359 | the alert is sent once over Telegram when Telegram is configured, and nothing is sent otherwise |
| `RunControl.FirstHealthy` | scripts/moltbot-daily-report.py:344-347 | the first of the three attempts whose probe succeeds, every earlier one having failed, or 3 when none succeeds |
| `RunControl.Failed` | scripts/moltbot-daily-report.py:344-351 | the effects of failed probes are probes and pauses only, numbered below the number of failures |
| `RunControl.AbortedProbes` | scripts/moltbot-daily-report.py:343-353 | three failed checks are probe, 5 s pause, probe, 5 s pause, probe, with no pause after the third |
| `RunControl.HealthCheck` | scripts/moltbot-daily-report.py:342-360 | the loop succeeds exactly when one of the three probes does, stops right after the first success, and pauses after each failed probe but the last |
| `RunControl.Attempts` | scripts/moltbot-daily-report.py:374-383 | every message goes to a configured channel with the report text, and every configured channel gets one |
| `RunControl.AttemptsAreConfigured` | scripts/moltbot-daily-report.py:376-383 | a channel is sent the report exactly when it is configured |
| `RunControl.Dispatch` | scripts/moltbot-daily-report.py:374-386 | every configured channel is tried in order whatever the earlier ones answered; the run is delivered exactly when some configured channel accepted |
| `RunControl.Conclude` | scripts/moltbot-daily-report.py:362-386 | a report that raised ends the run after the tool calls; otherwise the backup comes first, then the messages to the configured channels |
| `RunControl.RunOnce` | scripts/moltbot-daily-report.py:332-390 | the run aborts exactly when all three probes fail, and then does only the probes and the alert; otherwise it probes up to the first success, then does what the generated report leads to |
| `RunControl.NoChannelBackupOnly` | scripts/moltbot-daily-report.py:371-386 | with no channel configured a finished run only writes the backup and is not delivered |
| `Examples.OccupancyExample` | scripts/moltbot-daily-report.py:150-155 | 22 total, 15 occupied, 7 available and rate 68 give the six occupancy lines with those figures |
| `Examples.FrontCapsuleExample` | scripts/moltbot-daily-report.py:172-187 | one occupied front capsule F1 gives only the front block: `FRONT SECTION (1 capsules):`, `Occupied: F1`, `Available: None` |
| `Examples.EmptyOverdueExample` | scripts/moltbot-daily-report.py:214-215 | an empty overdue list gives the "no overdue guests" message, not the placeholder |

## Left out

- Network I/O. The HTTP POST of `call_tool`, the health GET, and the
  Telegram, WhatsApp and SMTP exchanges are parameters:
  `Backend.post`, `World.healthy` and `World.accepts`.
- `json.loads` is the parameter `Backend.loads`. A `requests` JSON-decode
  error on the response body is folded into `Transport.Failed`, as
  `requests` 2.27 and later raise it as a `RequestException`.
- Clocks, the `Asia/Kuala_Lumpur` time zone and `strftime` formatting. The
  three formatted readings are parameters: the report footer time, the
  alert time and the backup file stamp.
- `time.sleep` appears only as a `Pause(5)` event.
- Every `print` to the console is left out.
- The `schedule` loop and `main` are left out. A run that raises is
  recorded as `Crashed`. In the script, the exception leaves
  `schedule.run_pending()` and is caught by the top-level guard, which
  ends the process.
- Floats are left out: every JSON number is an int. `{rate}` for a float
  rate such as 68.5 is not modelled.
- `repr()` escaping is simplified: strs are quoted with `'`, without
  Python's escape rules. It matters only for a list or dict shown inside
  an f-string or an `"MCP Error"` message.
- Duplicate keys in a JSON object are left out. A lookup returns the first
  entry with the key, and decoded dicts are assumed to have distinct keys.
- The body of `save_to_file` is left out. The backup is the event
  `Backup(path, report)`. A failed write returns False and changes
  nothing else in the run, so its result is not modelled.
- The bodies of `send_telegram`, `send_whatsapp` and `send_email` are left
  out. Each is the event `Send(channel, report)` with the answer
  `World.accepts(channel)`. Every exception inside them is caught, so a
  channel can only answer True or False.
- The guard of `send_telegram` (no token or no chat id) is part of
  `Configured`. The alert therefore leaves the process only when Telegram
  is configured.
- The `MCP_URL`, the health URL derived from it, and the `timeout`
  arguments are left out. They only shape the HTTP exchanges, which are
  parameters.
- `McpClient.Normalise`: its contract states the error, scalar and
  pass-through cases. The `content` cases are stated by the lemmas
  `ContentIsDecoded`, `MissingTextIsEmptyDict` and
  `EmptyContentReturnsEnvelope` for a well-formed envelope, and by
  `ResultOfOtherShape` and `ContentOfOtherShape` for a `result` or
  `content` of another shape.
