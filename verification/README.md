# Kannel push proxy gateway, modelled in Dafny

This project models the push side of Kannel's WAP gateway.

The push proxy gateway (PPG, `gw/wap_push_ppg.c`) accepts push submissions from push initiators (PIs) under the Push Access Protocol (WAP-164 PAP). It keeps two in-memory registries:

- the session machines of clients it is pushing to (`ppg_machines`), each with its own queue of push machines;
- the list of connectionless pushes (`ppg_unit_pushes`).

It decides per submission whether the push goes connectionless or over a session. It rewrites and compiles the content, checks the requested bearer and the deliver-before/deliver-after window, and answers the PI with a PAP result code. It also reacts to indications from the OTA layer:

- connect;
- disconnect;
- push confirmation;
- push abort.

The OTA layer (`gw/wap_push_ota.c`, WAP-189 Push OTA) turns the PPG's requests into requests for the connected or connectionless WSP session service. Along the way it adds the Push-Flag header and assembles the service indication (SIA) for a session request: the application id list and the contact point.

Modules, following the structure of the C files:

| module | file | what it holds |
|---|---|---|
| `Wrappers`, `Octstr`, `HttpHeaders` | wrappers.dfy, octstr.dfy, http_headers.dfy | the parts of the octet-string and HTTP header libraries the core calls (searching, deleting, `%d` formatting, `strtol`-style parsing, header lists); gwlib is not part of this model, so these are stated from their documented behaviour |
| `WapEvents` | wap_events.dfy | the WAP events exchanged with the PI, the OTA layer and the application layer |
| `Pap` | pap.dfy | PAP result codes, `describe_code`, `ota_abort_to_pap` |
| `PiText` | pi_text.dfy | `type_is`, `headers_acceptable`, `get_mime_boundary`, `escape_fragment` |
| `PushTime` | push_time.dfy | the PAP timestamp tests and `delivery_time_constraints` |
| `PpgPolicy` | ppg_policy.dfy | `cless_accepted`, `confirmation_requested`, `sms_requested`, `select_bearer_network` |
| `PpgContent` | ppg_content.dfy | address tuples, `parse_appid_header`, `check_x_wap_application_id_header`, `content_transformable`, `pap_convert_content`, `transform_message` |
| `PpgMachines` | ppg_machines.dfy | push machines as values, push lists, `update_push_data_with_attribute`'s attribute table, the OTA requests and PI responses the PPG makes |
| `PpgPipeline` | ppg_pipeline.dfy | the decisions of `handle_push_message` as values (`Decide`, `Judge`, `Assess`, `Intake`) |
| `PpgRegistry` | ppg_registry.dfy | class `SessionMachine` and class `Ppg`: the registries, the outboxes, every registry operation, `handle_push_message` and `handle_internal_event` |
| `PushOta` | push_ota.dfy | the OTA layer: class `Ota`, the push flag, the SIA parts, `handle_ota_event` |

Modelling choices:

- **Registries.** The registries are fields of class `Ppg`: `machines` (a sequence of `SessionMachine` objects, updated in place) and `unitPushes`, a sequence of push machines. Push machines are values identified by their push id.
- **Moves.** An attribute update moves the push to the back of its list. In the C code, `list_delete_equal` followed by `list_append` moves the session to the back of `ppg_machines`. Both moves are stated exactly.
- **`Valid()`.** The invariant every method keeps: each push list holds push ids handed out by the counter, none twice.
- **`PushesPending()`.** The invariant the two event handlers keep: between events every registered push is pending. A handler marks a push delivered, undeliverable, aborted or expired only just before it removes it. So no push is ever seen to leave a final state, even though `update_push_data_with_attribute` itself would let a final push turn pending again. The constructor establishes it, and `HandlePushMessage` and `HandleInternalEvent` require and ensure it. The steps inside a handler do not keep it, since a stored push is not pending until it has been checked.
- **Outboxes.** The events the gateway sends are appended to three outbox fields:
  - `otaOut`: requests to the OTA layer;
  - `piOut`: push responses to the PI;
  - `applOut`: connect responses to the application layer.
- **Proof structure.** `Ppg.HandlePushMessage` is proved to do what the pure function `PpgPipeline.Intake` decides: the return value, the response code, the OTA request, and what becomes of the push and of the session. `Decide` carries the if-and-only-if properties of the branch structure.
- **External facts as parameters.** The clock (`now`, a broken-down `Tm`) is a parameter. So are the external helpers:
  - `toAppId` for `wsp_string_to_application_id`;
  - `contentType` for `http_header_get_content_type`;
  - the compilers for `wml_compile` and `si_compile`;
  - `capable` for `check_capabilities`;
  - `accepted` for `http_type_accepted`.
- **NULL dereferences.** In `handle_internal_event`, a NULL session or push machine is dereferenced when an indication names a session or push id the PPG does not know. The model reports the outcome `Crashed` and changes nothing.
- **Assertion failures.** In the OTA layer, a failed `gw_assert` is the outcome `Panic`, and no request is sent.
- **Session request headers.** `check_session_request_headers` asks whether the headers accept `application/wnd.wap.sia`, with the letter `w` as the code spells it. It adds `Content-Type: application/vnd.wap.sia` when they do not. The model keeps both spellings.
- **Contact point.** `pack_server_address` builds the first byte of the contact point by truncating the address length to an unsigned char. It then sets bit 0 and bit 1 counted from the most significant bit: bearer type included and port included. The model does the same (`SetBit`) and proves that the result is `0xC0` plus the length modulo 64. So the six-bit length field keeps only the low six bits of the length (`ContactPointLongAddressCut`).
- **Session request without an application id.** The PPG drops the X-WAP-Application-Id header when the application id is the WML user agent's default. A confirmed push without the header therefore leads to a session request with no such header. The OTA layer then fails `pack_appid_list`'s assertion (`SessionRequestWithoutAppidPanics`).

Where the prose around the code and the code disagree, the model follows the code:

- `session_exists` in `handle_push_message` is always 0, so every confirmed push leads to a session request, even when a session is open.
- `select_bearer_network` clears the bearer fields of the event after the push machine has copied them, so the push machine keeps them.
- `select_bearer_network` never compares the network: both of its loops compare the bearer, so a known bearer over any network is accepted. The model does the same (`SelectBearer`, `NetworkIgnored`). `SelectBearerNetwork` states the rule the comment describes, with the network checked against `networks[]`, as a reference; `UnknownNetworkAccepted` shows where the two differ.
- `remove_pushless_session` removes a session whose push list is empty whatever its session id, so a session that was given a WSP session id is removed too once its last push is dropped. The model does the same (`RemovePushlessSession`, and the rejections in `HandlePushMessage`).
- The session id of a new session is 0. `request_push` uses `pm->session_id`, which is never assigned.
- `delivery_time_constraints` treats a stamp equal to the current time as expired for deliver-before and as too early for deliver-after.

## Model

| member | source | states |
|---|---|---|
| Pap.DescribeCodeSpec | gw/wap_push_ppg.c:1569-1612 | every code of the table gets its own entry's text, every other code "unknown PAP code" |
| Pap.DescribeFromSpec | gw/wap_push_ppg.c:1603-1611 | the linear scan from index i finds the entry of the code at or after i, or reports it unknown |
| Pap.TableCodesDistinct | gw/wap_push_ppg.c:1569-1597 | the codes of the description table are pairwise distinct, so the lookup is unambiguous |
| Pap.UserAbortsTranslate | gw/wap_push_ppg.c:2006-2014 | the five client abort reasons land on PAP codes 5026..5030, in order |
| Pap.UserAbortsDescribed | gw/wap_push_ppg.c:1935-1940 | an aborted push gets a client-abort code 5026..5030 that describe_code does not know, and the description of the client's reason, which it does |
| Pap.ClientAbortCodesUnknown | gw/wap_push_ppg.c:1569-1612 | the codes 5026..5030 are described as "unknown PAP code" |
| PiText.TypeIs | gw/wap_push_ppg.c:2242-2262 | type_is holds exactly when the header contains the name, case-insensitively; the quoted search adds nothing |
| PiText.HeadersAcceptable | gw/wap_push_ppg.c:2211-2234 | acceptable exactly when the first Content-Type header names both multipart/related and application/xml; that header's value, or the error text, is returned |
| PiText.GetMimeBoundary | gw/wap_push_ppg.c:2268-2293 | the boundary is the value after "boundary=", up to the next ';' or the end, with spaces and quotes dropped; none without a boundary parameter |
| PiText.BoundaryClean | gw/wap_push_ppg.c:2268-2293 | a boundary never holds ';', spaces or double quotes |
| PiText.GetMimeBoundaryAsWritten | gw/wap_push_ppg.c:2268-2293 | the loop as written diverges exactly when the boundary value has no ';' after it |
| PiText.BoundaryLastDiverges | gw/wap_push_ppg.c:2281-2289 | any header whose boundary parameter comes last sends the loop as written past the end |
| PiText.SampleBoundaryDiverges | gw/wap_push_ppg.c:2281-2289 | "multipart/related; boundary=abc" makes the loop as written diverge |
| PiText.BoundaryAsWrittenAgrees | gw/wap_push_ppg.c:2268-2293 | where the loop as written terminates, it yields what the bounded GetMimeBoundary yields |
| PiText.EscapeFragment | gw/wap_push_ppg.c:2501-2526 | the in-place deletion loop leaves exactly the fragment without the dangerous characters, the rest in order |
| PiText.EscapedClean | gw/wap_push_ppg.c:2501-2526 | a fragment with nothing dangerous is left unchanged |
| PiText.EscapeIdempotent | gw/wap_push_ppg.c:2501-2526 | escaping twice is escaping once |
| PiText.EscapedKeepsSafe | gw/wap_push_ppg.c:2501-2526 | every safe character is kept and every dangerous one removed |
| PushTime.DateItemCompare | gw/wap_push_ppg.c:2045-2057 | 1, -1 or 0 as the number at the position is greater, smaller, or equal/unparsable |
| PushTime.ScanSpec | gw/wap_push_ppg.c:2063-2113 | the field loop clears exactly when some examined field compares as the target and all fields before it compare equal |
| PushTime.TestClearedSpec | gw/wap_push_ppg.c:2063-2113 | a present stamp clears a test exactly when the first differing examined field compares as the target |
| PushTime.DeliverBeforeSpec | gw/wap_push_ppg.c:2063-2085 | deliver-before is cleared iff the stamp is later than now at the first differing field |
| PushTime.DeliverAfterSpec | gw/wap_push_ppg.c:2091-2113 | deliver-after is cleared iff the stamp is earlier than now at the first differing field |
| PushTime.EqualStampNotCleared | gw/wap_push_ppg.c:2063-2113 | a stamp equal to now in every examined field clears neither test |
| PushTime.NotBothCleared | gw/wap_push_ppg.c:2063-2113 | no present stamp clears both tests |
| PushTime.DeliveryTimeConstraints | gw/wap_push_ppg.c:1532-1556 | expired whenever the before-test fails; otherwise too early iff the after-test fails; otherwise no constraints |
| PushTime.UnconstrainedPushPasses | gw/wap_push_ppg.c:1532-1556 | a push with neither stamp has no constraints |
| PushTime.SameStampBlocks | gw/wap_push_ppg.c:1532-1556 | the same stamp for both bounds never lets a push through |
| PushTime.DeadlineReachedIsExpired | gw/wap_push_ppg.c:1532-1556 | a deadline equal to now is expired |
| PushTime.BeforeDeadlineIsCleared | gw/wap_push_ppg.c:1532-1556 | one second before the deadline the push passes |
| PushTime.ScanAsWrittenAgrees | gw/wap_push_ppg.c:2063-2113 | wherever the loop as written stays inside time_data it agrees with the bounded loop |
| PushTime.TestAsWrittenAgrees | gw/wap_push_ppg.c:2063-2113 | stamps of at most 20 characters never reach past time_data |
| PushTime.ScanAsWrittenOverruns | gw/wap_push_ppg.c:2063-2113 | a stamp longer than 20 characters whose six fields equal now reads time_data[6] |
| PushTime.OverlongStampReadsPastItems | gw/wap_push_ppg.c:2063-2085 | "2024-01-01T00:00:00Z+" at that second reads time_data[6] |
| PpgPolicy.SmsRequested | gw/wap_push_ppg.c:1003-1013 | SMS iff bearer and network are both required and are SMS and GSM |
| PpgPolicy.SelectBearerNetwork | gw/wap_push_ppg.c:1413-1489 | the rule the comment states, as a reference: supported unless bearer and network are both required and one of them is not in its table; a known non-SMS bearer clears the bearer fields |
| PpgPolicy.SelectBearerNetworkAsWritten | gw/wap_push_ppg.c:1448-1489 | the code as written reads past the bearer table exactly when a required bearer is unknown |
| PpgPolicy.SelectBearer | gw/wap_push_ppg.c:1448-1489 | the decision the gateway acts on: supported unless bearer and network are both required and the bearer is not in the bearer table, whatever the network; a known non-SMS bearer clears the bearer fields |
| PpgPolicy.SelectBearerFollowsCode | gw/wap_push_ppg.c:1448-1489 | wherever the code as written stays inside the bearer table, SelectBearer decides exactly as it; where it reads past the table, SelectBearer refuses |
| PpgPolicy.NetworkIgnored | gw/wap_push_ppg.c:1448-1489 | the network never changes the decision; with a network of the table the decision is the documented rule's |
| PpgPolicy.BearerAsWrittenAgrees | gw/wap_push_ppg.c:1448-1489 | inside its tables and with a known network, the code as written decides like the documented rule |
| PpgPolicy.UnknownNetworkAccepted | gw/wap_push_ppg.c:1448-1489 | SMS over the unknown network X.25 is accepted, as written and by SelectBearer; the documented rule refuses it |
| PpgPolicy.UnknownBearerReadsPastTable | gw/wap_push_ppg.c:1448-1489 | an unknown required bearer reads past the six-entry bearer table; SelectBearer refuses it |
| PpgContent.AddrTupleChangeCliport | gw/wap_push_ppg.c:2189-2202 | the same tuple with the remote port changed, none stays none |
| PpgContent.FindWina | gw/wap_push_ppg.c:2141-2176 | the first WINA URI of the table occurring in the value, with its position |
| PpgContent.AppEncodingRoundTrip | gw/wap_push_ppg.c:2155-2187 | an app-encoded value yields exactly the coded part |
| PpgContent.UnknownAppIsWmlUa | gw/wap_push_ppg.c:2155-2187 | a value naming no known application stands for the WML user agent |
| PpgContent.WinaIdCoded | gw/wap_push_ppg.c:2155-2187 | a known id with a code is replaced by the code's decimal text |
| PpgContent.CheckXWapApplicationIdHeader | gw/wap_push_ppg.c:1285-1309 | all X-WAP-Application-Id headers are replaced by one with the parsed first value, or by none for the WML user agent |
| PpgContent.AppidHeaderAtMostOnce | gw/wap_push_ppg.c:1285-1309 | afterwards at most one application id header remains and no other header changed |
| PpgContent.ContentTransformable | gw/wap_push_ppg.c:1314-1346 | transformable iff no Cache-Control header has the value no-transform |
| PpgContent.PapConvertContent | gw/wap_push_ppg.c:1372-1411 | WML and SI are compiled to their binary types, a failed compile rejects, other types pass unchanged |
| PpgContent.TransformMessage | gw/wap_push_ppg.c:1210-1278 | the port and address tuple chosen, the application id rewritten; a successful transformable push carries the body its type's compiler made; content without transformation passes unchanged |
| PpgContent.TransformFailure | gw/wap_push_ppg.c:1210-1278 | a transformation fails only for missing headers, a missing type or a failed compilation |
| PpgMachines.Without | gw/wap_push_ppg.c:1618-1631 | deleting by push id drops every push with that id and keeps the rest in order |
| PpgMachines.FindByPid | gw/wap_push_ppg.c:1852-1874 | the first push with the push id, none when there is none |
| PpgMachines.HasPiPushId | gw/wap_push_ppg.c:1876-1909 | some push of the list carries the PI push id |
| PpgMachines.WithoutIds | gw/wap_push_ppg.c:1618-1631 | deleting by push id removes exactly that id from the list's ids |
| PpgMachines.WithoutKeepsOk | gw/wap_push_ppg.c:1618-1631 | deleting keeps a push list well formed |
| PpgMachines.MoveToBack | gw/wap_push_ppg.c:1918-1981 | replacing a push by an updated copy at the back keeps the list well formed and holding the id |
| PpgMachines.AppendedThenDeleted | gw/wap_push_ppg.c:1643-1677 | a push appended with a fresh id, or its updated copy, is removed again by deleting that id |
| PpgMachines.ApplyStatus | gw/wap_push_ppg.c:1918-1981 | each status sets its message state, code, description code, event time or delivery method as the table says, and every field a status does not set keeps its value |
| PpgMachines.UnitPushReq | gw/wap_push_ppg.c:1019-1058 | a Po-Unit-Push.req, with credentials only for SMS with both, bearer and network only when required |
| PpgMachines.SessionRequestReq | gw/wap_push_ppg.c:948-966 | a Pom-SessionRequest.req to the client's connectionless push port |
| PpgMachines.KeptMembers | gw/wap_push_ppg.c:1717-1740 | the kept pushes are exactly the pushes not sent unconfirmed |
| PpgMachines.KeptPending | gw/wap_push_ppg.c:1717-1740 | the pushes left queued after delivery are pending when the list was |
| PpgMachines.KeptWhole | gw/wap_push_ppg.c:1717-1740 | the list is kept whole iff it holds no unconfirmed push |
| PpgMachines.KeptKeepsOk | gw/wap_push_ppg.c:1717-1740 | the kept pushes form a well-formed list |
| PpgMachines.DeliveryRequestsAt | gw/wap_push_ppg.c:1717-1740 | request i is the push request or confirmed push request for push i |
| PpgMachines.DeliveredCarry | gw/wap_push_ppg.c:1717-1740 | each request carries its push's headers, body and flags; a Po-Push.req over the push's session id iff the push is unconfirmed, otherwise a Po-ConfirmedPush.req naming the push over the session |
| PpgMachines.KeptAwaitConfirmation | gw/wap_push_ppg.c:1717-1740 | the pushes left queued are exactly, and in the same order, those whose confirmation was requested |
| PpgPipeline.Decide | gw/wap_push_ppg.c:570-637 | the branch structure: dropped iff duplicate, untransformable, bearer unsupported or expired; accepted iff not dropped; return 0 iff untransformable; wait, unit push or session request by the time constraint and confirmation |
| PpgPipeline.DecideDescribed | gw/wap_push_ppg.c:570-614 | every code a submission is answered with has a description |
| PpgPipeline.SessionRequestEvent | gw/wap_push_ppg.c:633-635 | the session request carries the submission without any Content-Type header |
| PpgRegistry.FirstMatch | gw/wap_push_ppg.c:920-940 | list_search finds the first session matching the key |
| PpgRegistry.RemoveSession | gw/wap_push_ppg.c:1798-1806 | list_delete_equal removes every occurrence of the session and nothing else |
| PpgRegistry.RemoveSessionAppend | gw/wap_push_ppg.c:1798-1806 | deleting a session distributes over concatenation |
| PpgRegistry.MoveSessionTwice | gw/wap_push_ppg.c:1986-2000 | moving a session to the back twice is moving it once |
| PpgRegistry.SessionMachine.constructor | gw/wap_push_ppg.c:785-813 | a new session has id 0, the PI's address and capabilities, no client capabilities, no pushes |
| PpgRegistry.Ppg.constructor | gw/wap_push_ppg.c:235-255 | empty registries and outboxes, counter at 0, so every registered push is pending (PushesPending) |
| PpgRegistry.Ppg.SessionFindUsingPiClientAddress | gw/wap_push_ppg.c:1491-1516 | the first session with the PI client address; none iff no session has it |
| PpgRegistry.Ppg.HavePushSessionFor | gw/wap_push_ppg.c:294-302 | the first session with the client's remote address; none iff no session has it |
| PpgRegistry.Ppg.HavePushSessionForSid | gw/wap_push_ppg.c:309-317 | the first session with the WSP session id; none iff no session has it |
| PpgRegistry.Ppg.StoreSessionData | gw/wap_push_ppg.c:1815-1827 | a new session machine is appended to ppg_machines; it holds no pushes, so every registered push stays pending |
| PpgRegistry.Ppg.UpdateSessionData | gw/wap_push_ppg.c:1986-2000 | session id, port and client capabilities set; the session moved to the back |
| PpgRegistry.Ppg.UpdateSessionDataWithHeaders | gw/wap_push_ppg.c:1829-1836 | the push replaces any push with its id at the back of the session's list |
| PpgRegistry.Ppg.ResponsePushConnection | gw/wap_push_ppg.c:1105-1124 | a connect response is sent iff the PI assumed no capabilities or the client has them |
| PpgRegistry.Ppg.DeliverUnitPush | gw/wap_push_ppg.c:1696-1711 | a push or unit push request is sent and the push is marked delivered unconfirmed at the back |
| PpgRegistry.Ppg.ResponsePushMessage | gw/wap_push_ppg.c:1129-1143 | one push response is appended for the PI |
| PpgRegistry.Ppg.StorePushData | gw/wap_push_ppg.c:1643-1677 | the new push is appended to its scope in either case; success iff its PI push id was not queued there |
| PpgRegistry.Ppg.UpdatePushDataWithAttribute | gw/wap_push_ppg.c:1918-1981 | the attribute is applied and the push replaces its old copy at the back; a session moves to the back of ppg_machines |
| PpgRegistry.Ppg.RemovePushData | gw/wap_push_ppg.c:1618-1631 | the push is deleted by id from the unit-push list or the session's list |
| PpgRegistry.Ppg.RemovePushlessSession | gw/wap_push_ppg.c:1798-1806 | the session is removed iff its push list is empty; otherwise nothing changes |
| PpgRegistry.Ppg.RemoveSessionData | gw/wap_push_ppg.c:1776-1793 | one user-pending abort response per queued push, in order; the list ends empty and the session leaves the registry |
| PpgRegistry.Ppg.AbortDelivery | gw/wap_push_ppg.c:1746-1769 | one capabilities-mismatch response per queued push, in order; the list ends empty; the session stays |
| PpgRegistry.Ppg.DeliverPendingPushes | gw/wap_push_ppg.c:1717-1740 | one request per push in order; the list keeps exactly the pushes not sent unconfirmed, in order |
| PpgRegistry.Ppg.HandlePushMessage | gw/wap_push_ppg.c:546-674 | the return value, the PI response, the OTA request and the registries as Intake decides, for every branch, with the bearer checked as the code checks it (SelectBearer); every registered push is pending before and after (PushesPending), so no push is seen to leave a final state |
| PpgRegistry.Ppg.Submit | gw/wap_push_ppg.c:574-674 | from storing on, the handler acts as Assess decides, a duplicate answered at once; a push left queued is pending, so every registered push stays pending |
| PpgRegistry.Ppg.ProcessStored | gw/wap_push_ppg.c:580-674 | after storing, the handler acts as Assess decides |
| PpgRegistry.Ppg.Conclude | gw/wap_push_ppg.c:593-674 | after the push is pending, the handler acts as Judge decides |
| PpgRegistry.Ppg.HandleInternalEvent | gw/wap_push_ppg.c:679-780 | a NULL dereference happens exactly where Crashes says and changes nothing, the named session included; otherwise each indication has the effect its predicate (Connected, Disconnected, Confirmed, AbortedPush) states; unhandled events change nothing; every registered push is pending before and after (PushesPending) |
| PpgRegistry.Ppg.ConnectIndication | gw/wap_push_ppg.c:699-721 | Connected: the session is updated and moved to the back; a capable client gets its pending pushes delivered, an incapable one has them all answered as a capabilities mismatch |
| PpgRegistry.Ppg.DisconnectIndication | gw/wap_push_ppg.c:723-730 | Disconnected: every queued push is answered with user-pending abort and the session is removed; nothing is sent to OTA |
| PpgRegistry.Ppg.ConfirmedPushConfirmation | gw/wap_push_ppg.c:738-750 | Confirmed: the confirmed push leaves the session's list and the session stays, moved to the back; on an unknown session or push nothing changes, the session's list included |
| PpgRegistry.Ppg.ConfirmPush | gw/wap_push_ppg.c:744-749 | with the push found, it is marked delivered and removed from the session's list, and the session moves to the back |
| PpgRegistry.Ppg.PushAbortIndication | gw/wap_push_ppg.c:755-769 | AbortedPush: the aborted push, moved to the back, and the others are all answered, and the session is removed; on an unknown session or push nothing changes, the session's list included |
| PpgRegistry.Ppg.AbortPush | gw/wap_push_ppg.c:765-767 | with the push found, it is marked aborted with the reason, every push of the session is answered and the session is removed |
| PushOta.PushFlag | gw/wap_push_ota.c:352-381 | the OR of the shifted flags equals authenticated + 2 trusted + 4 last, below 8 |
| PushOta.PushFlagDecodes | gw/wap_push_ota.c:352-381 | each of the three flags can be read back from the push flag |
| PushOta.AddPushFlag | gw/wap_push_ota.c:340-388 | for the three push kinds, the headers plus one Push-Flag header whose decimal value is the flag; none otherwise |
| PushOta.CheckSessionRequestHeaders | gw/wap_push_ota.c:434-438 | a Content-Type header for the SIA type is added at the end iff the type is not accepted |
| PushOta.ConcatAppend | gw/wap_push_ota.c:472-496 | concatenating joined lists of pieces is joining their concatenations |
| PushOta.ContactPoint | gw/wap_push_ota.c:502-528 | length byte, bearer type, decimal port, then the address |
| PushOta.HighBitsSet | gw/wap_push_ota.c:515-521 | setting bits 0 and 1 of the truncated length gives 0xC0 plus the length modulo 64 |
| PushOta.ContactPointFields | gw/wap_push_ota.c:502-528 | a read-back address has the length its six-bit field gives |
| PushOta.ContactPointRoundTrip | gw/wap_push_ota.c:502-528 | an address under 64 bytes reads back intact, with both flags, the bearer type and the port |
| PushOta.ContactPointLongAddressCut | gw/wap_push_ota.c:515-521 | for 64 bytes or more only a proper suffix of the address reads back |
| PushOta.Name | gw/wap_push_ota.c:534-540 | only "localhost" is replaced, by the official IP; so the result is never "localhost" unless the official IP is |
| PushOta.Forward | gw/wap_push_ota.c:171-426 | panic iff a flag or reason assertion or the application id assertion fails; otherwise each kind goes to one service, with its ids, headers and body |
| PushOta.SessionRequestAppids | gw/wap_push_ota.c:434-438 | completing the headers adds no application id header |
| PushOta.SessionRequestWithoutAppidPanics | gw/wap_push_ota.c:472-496 | a session request with no application id header panics |
| PushOta.SessionRequestWithAppidPacks | gw/wap_push_ota.c:205-230 | a session request with one application id header carries that id in its SIA |
| PushOta.Ota.constructor | gw/wap_push_ota.c:542-551 | nothing sent, no bearerbox address |
| PushOta.Ota.SetBearerboxAddress | gw/wap_push_ota.c:147-154 | the stored address is the resolved one |
| PushOta.Ota.HandleOtaEvent | gw/wap_push_ota.c:171-203 | the request Forward gives, appended to exactly one of the two outboxes, or to none |
| PushOta.Ota.MakeSessionRequest | gw/wap_push_ota.c:205-230 | the connectionless session request Forward gives, or a panic |
| PushOta.Ota.MakePushRequest | gw/wap_push_ota.c:232-250 | one push request with the push flag added |
| PushOta.Ota.MakeConfirmedPushRequest | gw/wap_push_ota.c:252-276 | one confirmed push request with the push flag added |
| PushOta.Ota.MakeUnitPushRequest | gw/wap_push_ota.c:278-317 | one unit push request, bearer and network only when required |
| PushOta.Ota.AbortPush | gw/wap_push_ota.c:319-335 | one push abort request with the reason and session |
| PushOta.Ota.PackAppidList | gw/wap_push_ota.c:472-496 | the loop appends the values in list order: the concatenation of the values |
| PushOta.Ota.PackServerAddress | gw/wap_push_ota.c:502-528 | the byte-by-byte construction gives ContactPoint of the bearerbox address |

## Left out

- HTTP intake and replies (`http_read_thread`, `send_to_pi`, `send_push_response`, `send_bad_message_response`, `tell_duplicate_push_id`, `parse_cgivars`): the model records each reply as a push response value in `piOut`, not as XML text over HTTP.
- Threads, queues, run status and the bearerbox mutex (`ota_read_thread`, `main_thread`, init/shutdown, `wap_push_ota_dispatch_event`): every event is handled to completion by one consumer, so the model is a sequence of method calls.
- `mime_parse`, `pap_compile`, `wml_compile`, `si_compile`, `wsp_string_to_application_id`, `http_header_get_content_type` and `http_type_accepted` are library code that is not part of this model. They are function parameters.
- `wsp_pdu_pack` is not part of this model: the SIA is kept as its two packed parts (`Sia(appidList, contactPoints)`), not as its encoded bytes.
- `http_header_mark_transformation` is not part of this model: the headers of a delivered push are not marked as transformed.
- `check_capabilities` always returns 1 in the source. It is the parameter `capable`, so the model also covers a client that lacks capabilities.
- Wall-clock time (`gw_gmtime(time(NULL))`, `set_time`) is the parameter `now`. The delivery time of a push machine is that `now`.
- Memory management and the macro-generated creation and destruction of machines: the machines are records and objects with constructors.
- `gw_assert` on the PPG side (`session_machine_assert`, `push_machine_assert`, the `sid >= 0` assertions) is not modelled as a panic. An indication that would dereference NULL is the `Crashed` outcome with no change.
- PpgRegistry.Ppg.AbortDelivery: the freed push machine `abort_delivery` returns, which the caller ignores, is not returned.
- PpgRegistry.Ppg.ConfirmedPushConfirmation: the PAP code passed along with `PAP_DELIVERED2` is not recorded, since a confirmed delivery sets no code.
- PushOta.Ota.constructor: the bearerbox address starts as NULL in the source; the model starts it empty.
- PpgRegistry.Ppg.HandlePushMessage: for a required bearer outside the bearer table the code reads past `bearers[]`; the model refuses such a push with PAP_REQUIRED_BEARER_NOT_AVAILABLE, as the corrected `SelectBearer` does. For a deliver-before or deliver-after stamp longer than 20 characters whose six fields equal the current time the code reads past `time_data`; the model uses the bounded test (`DeliveryTimeConstraints`). Both are listed under Findings.
- PpgRegistry.Ppg.Submit and PpgRegistry.Ppg.ProcessStored: the same two choices, since HandlePushMessage runs through them.
- PpgContent.TransformMessage: for a push without headers `transform_message` returns before it sets the address tuple, and `handle_push_message` then reads its uninitialised `tuple`. The model takes the tuple as absent, so the push is answered with PAP_ADDRESS_ERROR; the C behaviour is undefined. When the headers forbid a transformation or there is no body, `transform_message` destroys its content type and charset, which it never set (gw/wap_push_ppg.c:1272-1276). On that path and on the no-headers path it never sets `*type`, and `handle_push_message` destroys that uninitialised pointer; on the no-transform path, when a push goes out at once, it first passes it to `http_header_mark_transformation` (gw/wap_push_ppg.c:621, 640-668). These frees of uninitialised pointers are undefined behaviour that the model does not reproduce: it has no content type on those paths.
- The assertion in `deliver_pending_pushes` that the session has pushes is not modelled; the model delivers none for an empty list.
- PushOta.CheckSessionRequestHeaders and PushOta.AddPushFlag return a new header list instead of changing the list in place; the caller of either uses only the result.
- PushOta.Ota.PackServerAddress: the first byte is computed as a number below 256 and stored as a character; octets are characters below 256 throughout.
- The bearer type `GSM_CSD_IPV4` and `CONNECTED_PORT` come from WAP-259 WDP appendices A and B; the header that defines them is not part of this model.
- `gw/shared.h` and `test/test_charset.c` declare or exercise functions outside the push core and are not modelled.

## Findings

| source | as written | input that shows it | evidently intended | confidence | as-written member | corrected member |
|---|---|---|---|---|---|---|
| gw/wap_push_ppg.c:1469-1478 | the first loop of `select_bearer_network` runs up to the number of networks (9) but indexes the six-entry `bearers[]` | a push requiring bearer "X.25" with a network required reads `bearers[6]` | scan the bearer table within its bounds, so that an unknown bearer is refused | not executed | PpgPolicy.UnknownBearerReadsPastTable | PpgPolicy.SelectBearer |
| gw/wap_push_ppg.c:2063-2113 | the field loops of the deliver-before and deliver-after tests run while the position is inside the stamp and index `time_data[(j-5)/3+1]`, which has six entries | "2024-01-01T00:00:00Z+" compared at 2024-01-01 00:00:00 reads `time_data[6]` | stop after the seconds field | not executed | PushTime.OverlongStampReadsPastItems | PushTime.TestClearedSpec |
| gw/wap_push_ppg.c:2281-2289 | the loop of `get_mime_boundary` stops only at a ';', and `octstr_get_char` past the end returns -1, so it never ends when the boundary comes last | Content-Type "multipart/related; boundary=abc" | stop at the end of the header | not executed | PiText.SampleBoundaryDiverges | PiText.GetMimeBoundary |
