# OLT Manager core, modelled in Dafny

OLT Manager is a Flask application that watches a Huawei GPON OLT (optical line
terminal) and its ONUs (the optical units at the subscribers' premises). It polls the
OLT over SNMP, provisions new ONTs over the OLT's CLI through SSH, keeps an inventory of
OLTs, ONUs and log entries in a database, and configures home gateways over TR-069
(CWMP). This project models what that code does once a network reply has arrived, and
the state it keeps between requests. It proves the rules the code follows.

- `SnmpDecode` models the decoding rules of `app/snmp_utils.py`:
  - the health classifier `categorize_ont`;
  - the receive-power parser;
  - the power, uptime and temperature renderings;
  - the status tables;
  - the serial decoding.
- `SnmpUtils` models the collection logic of `app/snmp_utils.py`:
  - the ifIndex map;
  - the entity-index search and its fallback chain;
  - the OLT summary and its sysDescr override;
  - the ONU record assembly keyed by `(ifIndex, onuId)`.

  Walk and GET replies are inputs. A failed reply is `None`. A walk is the sequence of
  its `(oid, value)` rows.
- `Dashboard` models `app/controllers/main.py`:
  - the module-level poll cache, as the class `PollCache`;
  - the category counts of the dashboard and the category filter of the ONU API;
  - the ifIndex → slot/port/ONT arithmetic;
  - the five provisioning commands;
  - the stop-at-first-error command loop and the classification of its output.

  What `get_olt_info` and `get_ont_list` would return, and the reply to the n-th
  `execute_olt_command` call, are inputs.
- `SshSession` models `execute_olt_command` of `app/ssh_utils.py`:
  - the credential guard;
  - the prompt-or-deadline read loop over a transcript of polls;
  - the mapping of exceptions to messages;
  - closing the channel and the client;
  - the line-cleaning pass.
- `Inventory` holds the database rows, as sequences in primary-key order, and the
  `Store` class whose fields the routes update.
  - `OltController` models `app/controllers/olt.py`: add, edit, delete with cascade,
    details counts, and the SNMP refresh that reconciles polled ONUs with the table.
  - `OnuController` models `app/controllers/onu.py`: add, edit, delete, enable/disable
    through SNMP, and the single-ONU refresh.
- `SnmpManager` models `SNMPManager` and `HuaweiOLTManager` of
  `app/models/snmp_manager.py`:
  - the version and value-type guards;
  - the short-circuit on errors;
  - the ONU list, the status map and the OID construction.

  The SNMP agent is an oracle from request to response. It also says whether the
  manager's address resolves. Building a transport target raises for an address that
  does not, and the routes catch that exception (`SnmpManager.TransportRaise`).
- `Tr069Manager` models `app/models/tr069_manager.py`:
  - the CWMP reply decisions, where a reply is the `Status` element of namespace
    `urn:dslforum-org:cwmp-1-0` in document order;
  - the Download request fields;
  - the diagnostics sequencing;
  - the in-memory ACS registry, as the class `AcsServer`.

  The HTTP transport is an oracle from request to reply.
- `Tr069Controller` models `app/controllers/tr069.py`:
  - the Wi-Fi and VoIP parameter maps built from the posted form;
  - the firmware URL guard;
  - logging only after a success;
  - the lazy creation of the ACS server and manager in the application configuration,
    as the class `AppConfig`.
- `Wrappers` (Option) and `PyText` are shared helpers. `PyText` holds the subset of
  Python's `str` and `int` the code uses: strip, split, lower, `in`, `int()` and `str()`,
  on ASCII text (see "Left out").

Numbers that the source keeps as floats are integers here:

- receive and transmit power are in hundredths of a dBm;
- uptime is in TimeTicks, the hundredths of a second of section 7.1.8 of RFC 2578;
- instants are parameters (`now`) in microseconds.

### Where the code departs from the system's design description

The model follows the code in each case.

- The design describes a poll cache that is cleared by a failed fetch, so the next call
  retries. The code stores whatever the refetch returned, error dictionaries included,
  and serves an error for the rest of the minute (`Dashboard.ErrorIsCached`).
- After an ONU-list error, `index` stores `[]`, which is then served as a valid empty
  list (`Dashboard.EmptyListServedAfterError`).
- The design has a failure to reach the OLT mark it `error` and leave its ONUs alone.
  In the code:
  - a system-information error in `refresh_olt` leaves the OLT's status unchanged;
  - an ONU-list error comes after the OLT was already marked `online`;
  - an exception while reconciling commits the ONU rows already created or updated,
    together with the `error` status (`OltController.RefreshOltPaths`);
  - a polled serial that is already registered under another OLT gets a second row,
    which the unique index on `serial_number` refuses at the next flush. The handler's
    own commit fails again, so the request ends in an error and commits nothing
    (`RefreshCrashed`, `OltController.RefreshOltUnique`).
- `acs_settings` writes the host before `int()` parses the port. A bad port raises
  with the host already changed (`Tr069Controller.AcsSettings`).

## Model

| member | source | states |
|---|---|---|
| SnmpDecode.LabelInjective | app/snmp_utils.py:108-130 | the seven category labels are pairwise distinct |
| SnmpDecode.CategorizePriority | app/snmp_utils.py:114-118 | 'unregistered' gives 'Esperando Provisionamento' whatever the link and power; otherwise link 'offline' gives 'Offline'; any other combination that is not online + registered gives 'Desconhecido' |
| SnmpDecode.CategorizeSignalBands | app/snmp_utils.py:14-15 | online + registered: below −35.00 dBm very low, from −35.00 to below −28.00 low/critical, from −28.00 up OK, no reading 'Online (Sinal Desconhecido)' |
| SnmpDecode.CategorizeMonotone | app/snmp_utils.py:119-126 | a weaker signal is never graded better than a stronger one |
| SnmpDecode.GradedOnlyWhenOnlineRegistered | app/snmp_utils.py:118-128 | only online and registered ONUs get a signal grade or an "Online" category |
| SnmpDecode.ParseRxPower | app/snmp_utils.py:94-106 | the intended parser: no 'dBm' in the text gives None |
| SnmpDecode.AsWrittenNeverParses | app/snmp_utils.py:100-103 | the regex as written captures only groups containing '[', which float() rejects, so the parser never yields a number |
| SnmpDecode.ParseFormatPower | app/snmp_utils.py:355-366 | the intended parser inverts the power rendering: the field written for n hundredths parses back to n |
| SnmpDecode.RxParsersDisagree | app/snmp_utils.py:100 | as-written and intended parsers disagree on every rendered power value |
| SnmpDecode.AsWrittenGradeIsAlwaysUnknown | app/snmp_utils.py:108-128 | with the parser as written, every online + registered ONU is 'Online (Sinal Desconhecido)' |
| SnmpDecode.StatusTablesOutside | app/snmp_utils.py:349-354 | a status code outside 1..3 maps to 'invalid' in both tables |
| SnmpDecode.AsciiIgnore | app/snmp_utils.py:338-339 | decoding as ASCII and ignoring errors never lengthens the text |
| SnmpDecode.DecodeSerialCases | app/snmp_utils.py:336-346 | the serial is the raw value when the hex text does not decode, the ASCII text when it is vendor-prefixed, and the hex text otherwise |
| SnmpDecode.DigitLedSerialNotText | app/snmp_utils.py:340-341 | a decoded text that starts with four digits is never taken as the serial |
| SnmpDecode.HexEncode | app/snmp_utils.py:337 | the hex rendering has two characters per byte |
| SnmpDecode.FromHexEncode | app/snmp_utils.py:337-338 | bytes.fromhex inverts the hex rendering |
| SnmpDecode.SerialRoundTrip | app/snmp_utils.py:336-346 | an octet string printed as "0x" + hex decodes to its ASCII text when that text is vendor-prefixed, and to the bare hex otherwise |
| SnmpDecode.UptimeFields | app/snmp_utils.py:212-217 | hours below 24, minutes below 60; days, hours and minutes account for the ticks up to the sub-minute remainder |
| SnmpDecode.TemperatureUnit | app/snmp_utils.py:247 | " °C" is appended exactly to all-digit values; "N/A" and anything else are kept |
| SnmpUtils.IfRows | app/snmp_utils.py:84-91 | one row per walked pair, carrying the ifIndex its OID names |
| SnmpUtils.GetInterfaceMap | app/snmp_utils.py:80-92 | the loop builds the ifIndex map of the walk |
| SnmpUtils.LastWinsExact | app/snmp_utils.py:89 | the keys are exactly those some row carries, each with the value of its last row |
| SnmpUtils.InterfaceMapExact | app/snmp_utils.py:83-92 | exactly the ifIndexes of well-formed ifDescr rows are keys, each with the value of its last row; other rows are skipped and a failed walk gives {} |
| SnmpUtils.EntityCells | app/snmp_utils.py:168-179 | one parsed cell per walked row |
| SnmpUtils.GroupEntities | app/snmp_utils.py:166-179 | the first loop groups the rows by entity index, in order of first appearance |
| SnmpUtils.SearchGroups | app/snmp_utils.py:182-194 | the second loop returns the first group that matches |
| SnmpUtils.FirstMatch | app/snmp_utils.py:182-194 | a result matches and every group before it does not; None means no group matches |
| SnmpUtils.FindEntityIndex | app/snmp_utils.py:161-194 | find_entity_index: group the rows, then return the first match |
| SnmpUtils.FirstMatchUnique | app/snmp_utils.py:182-194 | the index that matches with no earlier match is the answer |
| SnmpUtils.GroupRowsIndexes | app/snmp_utils.py:168-179 | a group exists exactly for the indexes some well-formed row carries |
| SnmpUtils.EntityGroupsOfWalk | app/snmp_utils.py:168-179 | an entity is a candidate exactly when some walked row carries its index |
| SnmpUtils.EntitySearchFailedWalk | app/snmp_utils.py:164-165 | a failed or empty walk finds nothing |
| SnmpUtils.EntityMatchWithoutPart | app/snmp_utils.py:186-190 | with no description part, only the class decides a match |
| SnmpUtils.FirstWithPrefix | app/snmp_utils.py:262-268 | the word found starts with the prefix; None means no word does |
| SnmpUtils.BasicFetchFailedFields | app/snmp_utils.py:208-270 | a failed basic GET gives 'Erro ao buscar' for sysDescr and uptime with 0 seconds, and then the sysDescr override is skipped, so model and version are the detail fields as read |
| SnmpUtils.EntityIndexChain | app/snmp_utils.py:161-232 | a found non-zero index is the first chassis entity of its walk, or, only when that search was falsy, the first container entity mentioning MPLA, or, only when both were falsy, the first module mentioning Control; a falsy index means all three searches were falsy |
| SnmpUtils.DetailFetchFailedFields | app/snmp_utils.py:234-270 | with a found index and a failed detail GET, the temperature is 'Erro ao buscar', model and version are too unless the override supplies a word with MA5800 or V100R, and the basic fields are unaffected |
| SnmpUtils.OverrideFromDescr | app/snmp_utils.py:259-270 | step 4 for one field: the sysDescr word replacement |
| SnmpUtils.GetOltInfo | app/snmp_utils.py:196-273 | get_olt_info over its replies equals the specification of its four steps |
| SnmpUtils.OltInfoConfigGuard | app/snmp_utils.py:201-203 | without an IP or community nothing is queried and the configuration error is returned |
| SnmpUtils.UnfoundIndexFields | app/snmp_utils.py:234-256 | an index of 0, like a missing one, skips the detail GET and gives 'Índice não encontrado' for temperature, and for model and version unless the override supplies them |
| SnmpUtils.SearchFindsFirst | app/snmp_utils.py:161-194 | an index the search returns belongs to the first entity, in walk order, whose class or description matches |
| SnmpUtils.ChassisFirst | app/snmp_utils.py:228 | a non-zero chassis index wins |
| SnmpUtils.OltUptimeShape | app/snmp_utils.py:210-225 | every uptime is the rendering of the reported ticks or one of the two failure texts, with ticks 0 |
| SnmpUtils.OverrideOutcome | app/snmp_utils.py:259-270 | the field is kept or becomes a sysDescr word that starts with the prefix; it is replaced exactly when sysDescr mentions the prefix, the field lacks it and some word has it |
| SnmpUtils.OverrideIdempotent | app/snmp_utils.py:259-270 | applying the override twice is applying it once |
| SnmpUtils.OntColumnOf | app/snmp_utils.py:318-333 | a recognised base OID is the OID of its column |
| SnmpUtils.OntCells | app/snmp_utils.py:311-317 | one parsed cell per walked row |
| SnmpUtils.ApplyField | app/snmp_utils.py:334-366 | a decoded field never changes the key or the port name of its record |
| SnmpUtils.AssembleOnts | app/snmp_utils.py:305-366 | the keys listed are exactly the keys with records, without repeats, and every record carries its key |
| SnmpUtils.CollectOnts | app/snmp_utils.py:305-366 | the first loop builds the record table of the walk |
| SnmpUtils.CategorizeOnts | app/snmp_utils.py:372-375 | the second loop categorises every record, in key order, with `parse_rx_power` as written |
| SnmpUtils.GetOntList | app/snmp_utils.py:275-378 | get_ont_list over its two walks equals its specification, with the as-written parser; what each field of that list holds is `OntListFields` |
| SnmpUtils.ApplyFieldIn | app/snmp_utils.py:335-366 | a decoded value writes the field of its own column and leaves every other field |
| SnmpUtils.LastUpdateAbsent | app/snmp_utils.py:320-333 | with no row for the key, each field keeps the new record's default |
| SnmpUtils.AssembledFields | app/snmp_utils.py:305-366 | each field of an assembled record is what the last cell for its key in that column wrote, or the new record's default |
| SnmpUtils.DecodedColumn | app/snmp_utils.py:335-366 | a decoded value writes the column it was read from, except a status that is not an integer, and a row of another table writes nothing |
| SnmpUtils.CellWrites | app/snmp_utils.py:311-366 | a walked row writes column c of a key exactly when its OID ends in that key, its base is that column's OID, and its value decodes |
| SnmpUtils.LastUpdateOfWalk | app/snmp_utils.py:305-366 | the last cell writing a column is the decoding of the last walked row of that column and key whose value decodes |
| SnmpUtils.OntFieldOfWalk | app/snmp_utils.py:305-366 | one field of an assembled record, as the decoding of the last such row or the default |
| SnmpUtils.ReadField | app/snmp_utils.py:320-366 | the column equation gives the value of the field itself |
| SnmpUtils.OntFieldsOfWalk | app/snmp_utils.py:320-366 | every assembled record: the serial is the decoding of the last serial row for its key, or 'N/A'; the LOID the last LOID row, or 'N/A'; link and registration status the table entry of the last row of that column whose value is an integer, or 'unknown'; each power the rendering of the last row of its column, or 'N/A' |
| SnmpUtils.OntListFields | app/snmp_utils.py:305-378 | every record of the returned list has those fields, for its own (ifIndex, onuId) |
| SnmpUtils.OntKeysExact | app/snmp_utils.py:311-333 | a key has a record exactly when some cell carries it |
| SnmpUtils.OntKeysOfWalk | app/snmp_utils.py:311-333 | a record exists for (ifIndex, onuId) exactly when a walked row ends in those two integer components |
| SnmpUtils.OntRecordsShape | app/snmp_utils.py:323-375 | one record per distinct key, carrying its key and port name ('ifIndex i' when unmapped); its category depends only on the link and registration status, so no record is graded by power and every online, registered ONU is 'Online (Sinal Desconhecido)' |
| SnmpUtils.CategoriesIgnorePower | app/snmp_utils.py:94-130 | with the as-written parser, every categorised record gets the category of absent power: none is graded by signal |
| SnmpUtils.RecordsKeyed | app/snmp_utils.py:323-333 | the categorised records of an assembled table have pairwise distinct keys and carry their port names |
| SnmpUtils.IntendedRegrade | app/snmp_utils.py:94-130 | the intended grading keeps every record except its category, and changes the category exactly for an online, registered record whose power parses |
| SnmpUtils.IntendedOntList | app/snmp_utils.py:94-130 | on the returned list, the intended category is the power band, and it differs from the as-written one exactly for online, registered records with a readable power |
| SnmpUtils.UnparsedStatusKeepsRecord | app/snmp_utils.py:349-354 | a status value that is not an integer leaves the record as it was |
| SnmpUtils.StatusColumn | app/snmp_utils.py:349-354 | an integer status code sets the link or registration status through its table |
| SnmpUtils.PowerColumnRoundTrip | app/snmp_utils.py:355-366 | a power column holding the integer n is rendered so that the corrected parser reads back n |
| SnmpUtils.OntListErrors | app/snmp_utils.py:280-304 | missing configuration and a failed ONU walk return their errors |
| Dashboard.ServeHitOrFetch | app/controllers/main.py:25-43 | the stored pair is served with no fetch exactly when it is under 60 s old and both entries are set; otherwise both are fetched and stored with `now` |
| Dashboard.ErrorIsCached | app/controllers/main.py:38-43 | a failed fetch is stored and served again, without fetching, for the rest of the minute |
| Dashboard.RefreshForcesFetch | app/controllers/main.py:251-259 | after refresh_data the next request fetches |
| Dashboard.CounterCounts | app/controllers/main.py:80-82 | the Counter holds each label's number of records and no label without records |
| Dashboard.OnlineCategories | app/controllers/main.py:86 | the online test covers exactly the four online or graded categories |
| Dashboard.CategoryOrderComplete | app/controllers/main.py:90-98 | every category is in the display order |
| Dashboard.CategoryOrderDistinct | app/controllers/main.py:90-98 | the display order lists each category once |
| Dashboard.OnlineTotalCounts | app/controllers/main.py:86 | summing the Counter over the online labels counts the online records |
| Dashboard.OnlineOfflineBound | app/controllers/main.py:85-87 | online + offline never exceeds the total |
| Dashboard.OrderedExact | app/controllers/main.py:101 | a pair is listed iff it is a category of the order with its positive count |
| Dashboard.CategoriesCount | app/controllers/main.py:80-101 | a pair is on the category list iff it is a category of the order paired with its positive number of records |
| Dashboard.DashboardCounts | app/controllers/main.py:77-87 | with both fetches good, online and offline count the records of their categories |
| Dashboard.DashboardOltErrorOnly | app/controllers/main.py:71-76 | an OLT error alone shows every ONT with every count at zero |
| Dashboard.CountCategories | app/controllers/main.py:80-82 | the Counter loop computes the Counter of the records |
| Dashboard.SumOnline | app/controllers/main.py:86 | the sum loop computes the online total |
| Dashboard.OrderCategories | app/controllers/main.py:101 | the comprehension loop computes the ordered categories |
| Dashboard.FilterExact | app/controllers/main.py:132-133 | the filter keeps exactly the records of that category, each as often as it occurs |
| Dashboard.FilterIdempotent | app/controllers/main.py:133 | filtering twice by one category is filtering once |
| Dashboard.FilterRecords | app/controllers/main.py:133 | the loop computes the filtered list |
| Dashboard.LocationRoundTrip | app/controllers/main.py:175-183 | every ifIndex is base + slot·1048576 + port·65536 + ont, with port below 16 and ont below 65536 |
| Dashboard.IfIndexRoundTrip | app/controllers/main.py:175-183 | a location with port below 16 and ONT id below 65536 is recovered from its ifIndex |
| Dashboard.AuthorizationCommandsShape | app/controllers/main.py:196-202 | exactly five commands: "config", the PON interface "interface gpon 0/…", an "ont add" line carrying " sn-auth <serial> omci ont-lineprofile-id <profile>", then "quit" twice |
| Dashboard.LoopWithoutErrors | app/controllers/main.py:207-217 | with no error every command is sent and there is no final error |
| Dashboard.LoopStopsAtFirstError | app/controllers/main.py:207-217 | the first failing command is the last one sent, followed by exactly two "quit"s, and its error is reported |
| Dashboard.RunCommands | app/controllers/main.py:205-217 | the loop computes the output, the final error and the commands sent |
| Dashboard.AsWrittenStopsAfterFirstCommand | app/controllers/main.py:219 | as written, no authorization gets past its first command |
| Dashboard.OperationSuccessfulRedundant | app/controllers/main.py:226 | "operation successful" contains "success", so the second test adds nothing |
| Dashboard.ClassifySuccessFirst | app/controllers/main.py:226-240 | on the lower-cased output: authorized iff it contains "success"; a reported failure iff it does not but contains "failure" or "error" |
| Dashboard.AuthorizeOutcomes | app/controllers/main.py:143-240 | no JSON body, a falsy ifIndex or an empty serial sends nothing; with no command error all five commands are sent and a verdict returned; a command error ends with two "quit"s |
| Dashboard.LoopErrorSent | app/controllers/main.py:211-217 | a run that reports an error ends with two "quit"s |
| Dashboard.AuthorizeInvalidates | app/controllers/main.py:226-240 | only the success and unconfirmed outcomes invalidate the list, and the next request then fetches |
| Dashboard.EmptyListServedAfterError | app/controllers/main.py:66-70 | after an ONT-list error, [] is served as valid for the rest of the minute |
| Dashboard.PollCache.constructor | app/controllers/main.py:18-22 | the cache starts empty |
| Dashboard.PollCache.GetCachedSnmpData | app/controllers/main.py:25-43 | the served pair and the new cache are those of the cache specification |
| Dashboard.PollCache.Index | app/controllers/main.py:48-114 | the counts of the served data, and [] stored after an ONT-list error |
| Dashboard.PollCache.ApiOnus | app/controllers/main.py:118-137 | an error reply, the whole list for no filter or 'all', else the filtered list |
| Dashboard.PollCache.ApiAuthorizeOnt | app/controllers/main.py:141-240 | the reply and the commands sent, and the invalidation for accepting outcomes |
| Dashboard.PollCache.RefreshData | app/controllers/main.py:251-259 | all three entries are cleared |
| SshSession.ErrorMessageDistinguishes | app/ssh_utils.py:82-90 | the three exception classes give different messages |
| SshSession.ReadUntilPrompt | app/ssh_utils.py:61-74 | the polling loop computes what the loop specification receives |
| SshSession.ReadStopsAtFirstPrompt | app/ssh_utils.py:63-73 | the loop stops at the first chunk that ends in '>' or '#' once stripped, having received every chunk up to it |
| SshSession.DeadlineIsNotAnError | app/ssh_utils.py:76-78 | reaching the deadline is not an error; without expect_prompt every chunk is read |
| SshSession.ReceivedIsPrefixOfChunks | app/ssh_utils.py:63-67 | the received text is the chunks in arrival order, cut short |
| SshSession.RunShellSteps | app/ssh_utils.py:31-97 | the session steps compute the raw output, fault and channel state of the specification |
| SshSession.CleanLines | app/ssh_utils.py:99-109 | the cleaning loop computes the cleaned output |
| SshSession.KeptLinesExact | app/ssh_utils.py:102-107 | a line is kept iff it is a raw line whose strip is not the command and does not end in '>' or '#' |
| SshSession.KeptLinesIdempotent | app/ssh_utils.py:102-107 | cleaning the kept lines again changes nothing |
| SshSession.KeptLinesLength | app/ssh_utils.py:102-107 | never more lines than the raw output; all lines kept when every line passes |
| SshSession.ExecuteOltCommand | app/ssh_utils.py:20-112 | the result equals the session specification |
| SshSession.CredentialGuard | app/ssh_utils.py:27-29 | missing credentials give the fixed error and no output before anything is opened, and only missing credentials do |
| SshSession.ClosedWhereOpened | app/ssh_utils.py:91-97 | the channel and the client are closed exactly on the paths that opened them, and the channel is opened whenever connect and invoke_shell succeed |
| SshSession.FaultsReported | app/ssh_utils.py:82-90 | each exception maps to its message; partial output is still cleaned and returned |
| SshSession.PromptedSession | app/ssh_utils.py:43-73 | no error, channel and client opened and closed, and the cleaned output of the banner, the scroll output and the chunks up to the first prompt |
| SshSession.DeadlineSession | app/ssh_utils.py:61-80 | a session in which no poll raises reports no error; without expect_prompt its output is every chunk |
| Inventory.OltAt | app/controllers/olt.py:108 | the position found holds that id; None means no row does |
| Inventory.OltWithIp | app/controllers/olt.py:35 | the position found holds that address; None means no row does |
| Inventory.OnuAt | app/controllers/onu.py:102 | the position found holds that id; None means no row does |
| Inventory.OnuWithSerial | app/controllers/onu.py:35 | the position found holds that serial; None means no row does |
| Inventory.OnuOfOlt | app/controllers/olt.py:206 | the first row with that serial under that OLT; None means there is none |
| Inventory.OnusOf | app/controllers/olt.py:135 | exactly the ONUs of that OLT |
| Inventory.OnusNotOf | app/controllers/olt.py:119 | exactly the ONUs of other OLTs |
| Inventory.RemoveOlt | app/controllers/olt.py:122 | the rows without position k, in order |
| Inventory.RemoveOnu | app/controllers/onu.py:113 | the rows without position k, in order |
| Inventory.Store.constructor | app/controllers/olt.py:53 | an empty database with valid keys |
| Inventory.Store.Log | app/controllers/olt.py:56-61 | exactly one log entry is appended |
| OltController.AddOlt | app/controllers/olt.py:21-66 | the new state and outcome are those of the add specification |
| OltController.AddOltOutcomes | app/controllers/olt.py:32-63 | a bad port or a known address changes nothing; otherwise one OLT with status 'unknown' and the form's defaults, and one info log |
| OltController.AddOltKeepsInvariants | app/controllers/olt.py:34-38 | keys stay valid and addresses unique |
| OltController.EditOlt | app/controllers/olt.py:72-98 | the new state and outcome are those of the edit specification |
| OltController.EditOltFields | app/controllers/olt.py:76-95 | an unknown id or a bad port changes nothing; otherwise that row takes name, address, community, model, vendor, version and port from the form (absent ones as NULL), keeps id, status, last check and creation time, the other rows and the ONUs are untouched, and one info log is added |
| OltController.DeleteOlt | app/controllers/olt.py:104-126 | the new state and outcome are those of the delete specification |
| OltController.DeleteOltCascade | app/controllers/olt.py:108-123 | the OLT and every ONU of it are removed, every other row is kept, and one warning log is added |
| OltController.CountStatus | app/controllers/olt.py:139-140 | a count never exceeds the number of ONUs |
| OltController.CountTwoStatuses | app/controllers/olt.py:139-140 | two different statuses together never exceed the number of ONUs |
| OltController.DetailsCounts | app/controllers/olt.py:130-148 | the page shows exactly that OLT's ONUs, and online + offline ≤ total |
| OltController.Located | app/controllers/olt.py:206-225 | the row found or created is in the table; OLTs are untouched |
| OltController.ReadingOf | app/controllers/olt.py:228-235 | a status read is a value or an error, never both, and one of the four names |
| OltController.Polled | app/controllers/olt.py:227-237 | status and signal change only when their fetch succeeded; last-seen is set unless the signal conversion raised |
| OltController.ReconcileEntry | app/controllers/olt.py:205-237 | one entry never changes the OLT table; a serial registered under another OLT crashes the request |
| OltController.ReconcileAll | app/controllers/olt.py:205-237 | the loop never changes the OLT table |
| OltController.ReconcileOne | app/controllers/olt.py:205-237 | the loop body computes the reconciliation of one entry, and changes nothing when it crashes |
| OltController.ReconcileList | app/controllers/olt.py:205-237 | the loop over the polled list computes the reconciliation of the whole list, stopping at the first exception or crash |
| OltController.RaisedStays | app/controllers/olt.py:205-251 | after an entry raises or crashes, the rest of the list is never looked at |
| OltController.RefreshOlt | app/controllers/olt.py:152-265 | the new state and outcome are those of the refresh specification |
| OltController.RefreshOltPaths | app/controllers/olt.py:154-263 | an unknown id changes nothing; a system-info error adds one log and changes no row; an ONU-list error adds one log after the OLT was marked 'online' with a fresh check, changing no ONU; an exception (an unresolvable address, or a signal conversion) marks it 'error' with a fresh check; a serial registered under another OLT commits nothing; success leaves it 'online' and ends with the summary log |
| OltController.RefreshOltSucceeds | app/controllers/olt.py:239-249 | success exactly when the address resolves, the system-information and ONU-list fetches are clean, and no entry raises or crashes while reconciling |
| OltController.ReconcileEntryEffect | app/controllers/olt.py:205-237 | a serial not under this OLT but registered under another crashes with nothing changed; otherwise the row is found by (serial, OLT), or exactly one 'ONU-<id>' row with status and port 'unknown' is created with one detection log, and status, signal and last-seen follow the readings |
| OltController.ReconcileEntryUnique | app/controllers/olt.py:205-239 | one entry never leaves two rows with one serial |
| OltController.ReconcileAllUnique | app/controllers/olt.py:205-239 | the whole loop keeps serials unique, whichever way it ends |
| OltController.RefreshOltUnique | app/controllers/olt.py:152-263 | refresh_olt never commits a second row for a serial, as the unique index on `serial_number` demands |
| OltController.ReconcileAllKeeps | app/controllers/olt.py:205-237 | existing rows keep their key, serial, name, OLT, port and creation time, and keys stay valid |
| OltController.ReconcileAllFinds | app/controllers/olt.py:205-237 | unless an entry raised or crashed, every polled serial has a row under this OLT afterwards |
| OnuController.AddOnu | app/controllers/onu.py:22-63 | the new state and outcome are those of the add specification |
| OnuController.AddOnuOutcomes | app/controllers/onu.py:29-60 | a bad OLT id or a known serial changes nothing; otherwise one ONU with status 'unknown' and one info log; serials stay unique |
| OnuController.EditOnu | app/controllers/onu.py:69-92 | the new state and outcome are those of the edit specification |
| OnuController.EditOnuFields | app/controllers/onu.py:77-89 | only name, OLT and port of that row change, plus one info log |
| OnuController.DeleteOnu | app/controllers/onu.py:98-117 | the new state and outcome are those of the delete specification |
| OnuController.DeleteOnuExact | app/controllers/onu.py:102-114 | exactly that ONU is removed and one warning log is added |
| OnuController.OnuIdOfPort | app/controllers/onu.py:155 | the ONU id is the text after the last '/' in the port, and "1" without one |
| OnuController.Switch | app/controllers/onu.py:135-257 | the new state and outcome are those of the enable/disable specification |
| OnuController.Enable | app/controllers/onu.py:135-194 | enable_onu is the switch with 1 and 'online' |
| OnuController.Disable | app/controllers/onu.py:198-257 | disable_onu is the switch with 3 and 'disabled' |
| OnuController.SwitchEffects | app/controllers/onu.py:158-192 | an unknown ONU or OLT changes nothing; a '2c' OLT whose address does not resolve raises, which changes no row and adds one error log; otherwise the status becomes 'online'/'disabled' exactly when the OLT's version is '2c' and the write reports no error, and only that field changes; on a refusal no row changes and one error log is added |
| OnuController.RefreshOnu | app/controllers/onu.py:261-313 | the new state and outcome are those of the refresh specification |
| OnuController.RefreshOnuPartial | app/controllers/onu.py:284-311 | an address that does not resolve changes no row and adds one error log; otherwise only that row changes: its status if the status fetch succeeded, its signal if the signal fetch did, and its last-seen time unless the conversion raised |
| SnmpManager.GetSnmpData | app/models/snmp_manager.py:10-33 | a GET yields a value or an error, never both |
| SnmpManager.GetVersionGuard | app/models/snmp_manager.py:14-33 | any version but '2c' is refused whatever the agent would answer |
| SnmpManager.GetOutcomes | app/models/snmp_manager.py:23-33 | a clean response yields its first binding; one with no binding falls through to the unsupported-version return |
| SnmpManager.WalkSpec | app/models/snmp_manager.py:35-63 | a walk yields rows or an error, never both |
| SnmpManager.WalkSnmpData | app/models/snmp_manager.py:35-63 | the walk loop computes the walk specification |
| SnmpManager.WalkErrorDiscards | app/models/snmp_manager.py:53-56 | an error at any step returns it and discards every row gathered before |
| SnmpManager.WalkCleanRows | app/models/snmp_manager.py:57-61 | a clean walk returns every binding of every response, in order |
| SnmpManager.SetGuards | app/models/snmp_manager.py:65-102 | an unsupported type is refused before anything is sent; success means the agent reported no error |
| SnmpManager.SystemInfoOutcomes | app/models/snmp_manager.py:123-143 | a dict or an error, never both; the first error is returned and later GETs do not matter |
| SnmpManager.GetOnuList | app/models/snmp_manager.py:145-163 | the loop computes the ONU list specification |
| SnmpManager.OnuListEntries | app/models/snmp_manager.py:149-163 | one entry per walked pair, in order, with the last OID component as id; a walk error propagates |
| SnmpManager.LastComponentOf | app/models/snmp_manager.py:157 | an OID ending in ".n" has id n |
| SnmpManager.StatusNames | app/models/snmp_manager.py:175-182 | one of four names; '1', '2' and '3' are the only codes that name online, offline and disabled |
| SnmpManager.OnuStatusReadsItsOid | app/models/snmp_manager.py:165-184 | get_onu_status reads the status OID of that ONU only |
| SnmpManager.ParseDecimalOfInt | app/models/snmp_manager.py:197 | float() of an integer's text reads back the integer |
| SnmpManager.SignalTenths | app/models/snmp_manager.py:186-199 | an integer reading n is n / 10 dBm |
| SnmpManager.EnableDisableWrites | app/models/snmp_manager.py:201-215 | enable and disable depend only on writing 1, resp. 3, to the ONU's status OID, and succeed iff the version is '2c' and that write reports no error |
| Tr069Manager.SessionAuth | app/models/tr069_manager.py:12-18 | session credentials are set exactly when both username and password are truthy |
| Tr069Manager.FindStatus | app/models/tr069_manager.py:156 | the first Status element of the namespace in document order; None when there is none |
| Tr069Manager.Accepted | app/models/tr069_manager.py:150-157 | a reply is accepted iff it arrived and its first Status element reads "0" |
| Tr069Manager.NoStatusRejected | app/models/tr069_manager.py:156-157 | a reply without a Status element is never accepted |
| Tr069Manager.FirstStatusDecides | app/models/tr069_manager.py:156-157 | a later Status "0" does not rescue a reply |
| Tr069Manager.SetParameterValues | app/models/tr069_manager.py:118-160 | True iff the reply is accepted; a failed request gives False |
| Tr069Manager.RebootDevice | app/models/tr069_manager.py:162-183 | True iff any reply arrived |
| Tr069Manager.FactoryReset | app/models/tr069_manager.py:185-206 | True iff any reply arrived |
| Tr069Manager.OptionalField | app/models/tr069_manager.py:237-251 | an optional element is written once and only for a truthy value |
| Tr069Manager.DownloadFields | app/models/tr069_manager.py:228-251 | CommandKey, FileType and URL come first and FileSize is always written; each truthy optional value is written |
| Tr069Manager.DownloadOptionalFields | app/models/tr069_manager.py:237-251 | Username, Password and TargetFileName are present exactly when truthy |
| Tr069Manager.DownloadFieldsOrdered | app/models/tr069_manager.py:228-251 | every element appears at most once, in the fixed order |
| Tr069Manager.Download | app/models/tr069_manager.py:208-269 | the request's own CommandKey iff the reply is accepted, else None |
| Tr069Manager.RunDiagnostics | app/models/tr069_manager.py:356-454 | ping and traceroute set their parameters, then read the results only when the set was accepted; any other type is None |
| Tr069Manager.DiagnosticsSkipGet | app/models/tr069_manager.py:393-435 | when the set fails, the result is None whatever the get would answer |
| Tr069Manager.DiagnosticsRequests | app/models/tr069_manager.py:367-452 | the ping and the traceroute requests both set their state to "Requested" and target 8.8.8.8, and each result list starts with its DiagnosticsState |
| Tr069Manager.Merge | app/models/tr069_manager.py:519 | dict.update adds the new keys, overwrites the shared ones, keeps the others |
| Tr069Manager.Registered | app/models/tr069_manager.py:486-498 | the registry holds a fresh entry for the id with empty parameters; other devices are untouched |
| Tr069Manager.Updated | app/models/tr069_manager.py:512-521 | an unknown id leaves the registry as it is; a known one gets the merged parameters and a new last-seen, others untouched |
| Tr069Manager.ReRegisterForgets | app/models/tr069_manager.py:490-496 | registering again forgets the parameters stored before |
| Tr069Manager.UpdateAfterRegister | app/models/tr069_manager.py:486-521 | an update right after a registration stores exactly the updated parameters |
| Tr069Manager.AcsServer.constructor | app/models/tr069_manager.py:460-465 | the address and credentials given, and an empty registry |
| Tr069Manager.AcsServer.Start | app/models/tr069_manager.py:467-477 | always True |
| Tr069Manager.AcsServer.Stop | app/models/tr069_manager.py:479-484 | always True |
| Tr069Manager.AcsServer.RegisterDevice | app/models/tr069_manager.py:486-498 | True, and the registry becomes the registration of the device |
| Tr069Manager.AcsServer.GetDevice | app/models/tr069_manager.py:500-504 | the entry of a known id; None for an unknown one |
| Tr069Manager.AcsServer.UpdateDeviceParameters | app/models/tr069_manager.py:512-521 | True iff the id is known, and the registry becomes the update |
| Tr069Controller.WifiParamsUnique | app/controllers/tr069.py:79-129 | the form fixes the Wi-Fi parameter map completely |
| Tr069Controller.WifiSettings | app/controllers/tr069.py:79-129 | Enable is "1" iff wifi_enabled is truthy; defaults '', '0', 'None'; the key only for a password; the 5 GHz radio iff wifi_5g_enabled, its key iff password_5g too; no other keys |
| Tr069Controller.VoipParamsUnique | app/controllers/tr069.py:170-210 | the form fixes the VoIP parameter map completely |
| Tr069Controller.VoipSettings | app/controllers/tr069.py:170-210 | the eight base keys always, text fields defaulting to ''; AuthPassword iff a password is given; no other keys |
| Tr069Controller.AppConfig.constructor | app/controllers/tr069.py:388-401 | no ACS address, credentials or server yet |
| Tr069Controller.LoggedIf | app/controllers/tr069.py:131-145 | the entry is logged only on success; no row table changes |
| Tr069Controller.WifiRoute | app/controllers/tr069.py:66-147 | no manager: nothing sent; else the Wi-Fi map is sent, and one info log exactly on success |
| Tr069Controller.VoipRoute | app/controllers/tr069.py:157-228 | no manager: nothing sent; else the VoIP map is sent, and one info log exactly on success |
| Tr069Controller.FileSizeOf | app/controllers/tr069.py:262 | a missing file size is 0; otherwise int() of the field |
| Tr069Controller.FirmwareRoute | app/controllers/tr069.py:240-280 | no manager or no URL: nothing sent; a file size int() refuses raises before sending; otherwise a file type 1 Download with the form's fields; success iff that download is accepted with a non-empty id; logged only then |
| Tr069Controller.RebootRoute | app/controllers/tr069.py:286-313 | success iff the reboot got a reply; logged only then |
| Tr069Controller.FactoryResetRoute | app/controllers/tr069.py:315-342 | success iff the reset got a reply; a warning logged only then |
| Tr069Controller.DiagnosticsRoute | app/controllers/tr069.py:344-384 | no manager or no type: nothing run; otherwise the results of run_diagnostics for that type, success iff they are a non-empty dictionary; logged only then |
| Tr069Controller.StartAcs | app/controllers/tr069.py:386-419 | a server is created from the configuration (defaults 0.0.0.0:7547) only when none exists, and reused otherwise |
| Tr069Controller.StopAcs | app/controllers/tr069.py:421-448 | not configured without a server; otherwise stopped and logged |
| Tr069Controller.SettingsPort | app/controllers/tr069.py:459 | a missing port is 7547; otherwise int() of the field |
| Tr069Controller.SettingsManager | app/controllers/tr069.py:464-471 | an existing manager is kept unchanged; otherwise a new one with the given credentials |
| Tr069Controller.AcsUrlPort | app/controllers/tr069.py:467 | the port reads back from the URL after the last ':' |
| Tr069Controller.SettingsKeepFirstUrl | app/controllers/tr069.py:464-471 | saving twice keeps the URL of the first save |
| Tr069Controller.AcsSettings | app/controllers/tr069.py:450-474 | the host is written first; a port int() refuses raises with the rest unchanged; otherwise port and credentials are written and the manager is created only if none exists; the ACS server is never touched |

## Left out

- Transport is out of the model: pysnmp's `getCmd`, `nextCmd` and `setCmd` (including
  the GET-NEXT walk of section 4.2.2 of RFC 3416), paramiko's connect, `invoke_shell`
  and `recv`, and the `requests` POST. Their results are inputs or oracles. So
  `snmp_walk` and `get_snmp_data` of `app/snmp_utils.py` appear only as the `Option`
  replies they return, and `_send_request` only as the `Reply` oracle.
- Of the exceptions pysnmp can raise, only the unresolvable address of
  `SNMPManager` is modelled (`Agent.unresolved`), in `refresh_olt`, `enable_onu`,
  `disable_onu` and `refresh_onu`. It is taken to fail every call alike, so it is
  decided before the first one. `snmp_walk` and `get_snmp_data` of
  `app/snmp_utils.py` build their target in the same way, but there the replies are
  inputs that never raise.
- AssembleOnts and OntFieldsOfWalk take a walk as a sequence of rows, while `snmp_walk`
  returns a dict, where a repeated OID keeps only its last value. The model processes
  every row. Keys and record creation agree, and for the serial, LOID and power columns
  the last row wins in both. For the link and registration columns the two differ when
  a later row of the same OID is not an integer: the model keeps the earlier integer
  code (rows `[(o, "1"), (o, "x")]` give 'online'), where the source sees only "x" and
  shows 'unknown'.
- XML envelope building and ElementTree parsing are out. A reply is its element sequence
  in document order, and only the `Status` decision is modelled. A 2xx reply that is
  not well-formed XML makes `ET.fromstring` raise a ParseError, which the handler does
  not catch. It escapes `set_parameter_values`, `reboot_device`, `factory_reset` and
  `download` into the route, instead of giving False or None. The model has no such
  reply.
- `int()`, `str.isdigit`, `str.isalnum`, `str.isupper` and `str.lower` work on ASCII text here, and
  ParseInt reads only the digits 0-9 without underscores. Python's `int()` also accepts
  underscores between digits (`int("1_61") == 161`) and non-ASCII decimal digits, and
  `isdigit` accepts characters such as '²'. For such a form port, `add_olt` and
  `edit_olt` accept the value, while the model answers that the port is not an integer.
  `PyText.Lower` folds only 'A'-'Z', while Python's `lower()` (app/snmp_utils.py:187,
  app/controllers/main.py:226 and :232) also folds letters such as 'É'.
- Dashboard.PlanAuthorization: the JSON `ifIndex` of `api_authorize_ont` is null, an
  integer or a string (`Json`). Other JSON values are not modelled. There `int(if_index)`
  (app/controllers/main.py:180) truncates a float (16843009.7 as 16843009), reads `true`
  as 1, and raises TypeError for a non-empty list or object inside the `try`, which
  gives the 500 reply of main.py:191.
- `get_parameter_values` is the `fetch` oracle of `RunDiagnostics`.
- `get_wifi_settings` and `get_voip_settings` only pass name lists to
  `get_parameter_values`. The GET branches of the Wi-Fi and VoIP routes only render
  them.
- `set_wifi_settings` and `set_voip_settings` delegate to `set_parameter_values`, so
  the routes call `SetParameterValues` directly.
- `get_all_devices` returns the registry dict itself. That aliasing is not modelled;
  `GetDevice` covers lookups.
- `AcsServer.Start` does not model a listening server. The source's start only logs.
- Floating point is out:
  - power is in hundredths of a dBm, and raw power values are limited to decimal
    integer strings. So `FormatPower` renders "-0" as "0.00 dBm", where Python prints
    "-0.00 dBm" for the float −0.0. A leading sign and surrounding white space
    ("+5", " 12 ") are read as Python reads them. Text that `float()` reads but that
    is not an optionally signed ASCII integer is rendered 'Invalid Value' by the model:
    underscores between digits ("1_0", which Python renders "0.10 dBm"), a fraction
    ("1.5"), an exponent ("1e3"), `nan`, `inf` and non-ASCII digits;
  - `float()` in `get_onu_signal` is limited to plain decimal text (no exponent, `nan`
    or `inf`);
  - uptime is in integer ticks.
- `time.sleep` pacing and the wall clock are out: instants and the read deadline are
  inputs. `Dashboard.PollCache.ApiAuthorizeOnt` omits the pause of the command loop;
  the `NameError` it raises is the second finding. The diagnostics routine's wait was
  left out the same way.
- GetOntList, CategorizeOnts and OntRecordsShape follow `parse_rx_power` as the source
  has it, so the ONU list grades no record by power (the first finding).
  `SnmpUtils.IntendedRecords` is the intended grading, which the program does not
  produce. `IntendedOntList` states how the two differ.
- The ifIndex arithmetic is modelled as written. Whether it matches Huawei's real
  numbering is not claimed.
- Concurrency is out. The module-level cache is used by sequential calls only.
- Flask plumbing, `flash`, `render_template`, `redirect`, `jsonify` and logging output
  are out. So are the read-only pages: `list_olts`, `list_onus`, `onu_details`, the
  TR-069 `dashboard`, `device_list` and `device_details`.
- In `index`, the model gives the counts only. `total_olts` and the ten latest logs are
  plain reads.
- The UUID that `download` generates is the `commandKey` parameter.
- EditOlt: the unique index on `ip_address` is not modelled. An `edit_olt` to an
  address already in use makes the commit raise, and the model stores the row. The add
  routes check for duplicates themselves (`add_olt` the address, `add_onu` the serial),
  and the model has those checks. The unique serial in `refresh_olt` is modelled, as
  `RefreshCrashed`.
- AddOlt, AddOnu and Located hand out ids one above every id ever given (`nextOltId`,
  `nextOnuId`), so an id is never reused. SQLite without AUTOINCREMENT gives the largest
  id in the table plus one, which reuses the id of a deleted last row. The model's keys
  are distinct and increasing either way, but may differ from the database's.
- One instant `now` serves a whole request, where the source reads the clock at each
  assignment.
- String fields the source may read as `None` from the form (`name`, `ip_address`,
  `serial_number`, `port`, the community) are strings. A missing one is "".
- An `errorIndex` beyond the bindings, which makes the source raise an IndexError
  while formatting the error, is reported as "?".

## Findings

| source | as written | input that shows it | evidently intended | confidence | as-written member | corrected member |
|---|---|---|---|---|---|---|
| app/snmp_utils.py:100 | the pattern `(-?\[0-9\.]+)\s*dBm` escapes the bracket, so a captured group always contains '[' and `float()` rejects it | "-28.23 dBm" gives None, so every online ONU is graded 'Online (Sinal Desconhecido)' | the class `[0-9.]`, so the number before "dBm" is parsed | high (not executed) | SnmpDecode.AsWrittenNeverParses | SnmpDecode.ParseFormatPower |
| app/controllers/main.py:219 | `time.sleep(0.5)` runs after every command without error, but the module never imports `time` | any authorization whose "config" command answers without error raises NameError before "interface gpon" is sent | a pause between commands, then the next command | high (not executed) | Dashboard.AsWrittenStopsAfterFirstCommand | Dashboard.RunCommands |
