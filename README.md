# Membership management: audit-logging proxy and member store

This project models, in Dafny, the two services of the Membership-management
system that hold its behaviour:

- **member-service** (`AuditProxy`, file `audit_proxy.dfy`): a proxy whose four
  entry points (create, get, update, delete) forward a request to the
  info-service and write a `QueryHistory` record of the attempt to the
  query-history repository before answering. The class `AuditProxy.MemberService`
  holds the info-service base URL and the repository's records as a `seq` that
  only grows. Every entry point is specified against the pure function
  `Forwarded`, which states, case by case, what is recorded and what the caller
  gets, including the path where the history save itself fails.
- **info-service** (`MemberStore`, file `member_store.dfy`): the system of
  record. The class `MemberStore.MemberService` holds the member repository as a
  `map<Long, Member>`; create, get, get-all, update and delete read it or
  reassign it, with "nothing else changes" frame conditions and the not-found
  error `"Member not found with id: " + id`.
- `LongText` (`long_text.dfy`) gives Java's `long` and the decimal text that
  `"..." + id` produces for it, with a reference reader and the round trip that
  shows each such string names its id. `Wrappers` (`wrappers.dfy`) holds `Option`.

The reactive chain of each proxy entry point is
`call.flatMap(save success record, then answer the body).onErrorResume(save failure record, then re-raise)`.
Because the error handler comes after the success handler, a failed success save
is itself caught: a failure record with the store's message is then attempted,
and the caller gets the store's error instead of the body. If the failure
record's save fails as well, the caller gets that second store error.

Two behaviours of the code as written are worth knowing:

- A call that succeeds with an empty body never reaches the success handler,
  so no history record is written and the caller gets an empty answer. The
  info-service answers a delete with 204 No Content, so a successful delete is
  never recorded, although the member-service defines a DELETE tag and the
  details "Deleted member with id: " + id for exactly that case (see
  "## Findings"). `Forwarded` models the code as written;
  `ForwardedDefaultingEmpty` models the evident intent.
- A failed history save is not degraded into a success: the caller sees the
  store's error, and the record that failed to save is not in the history.

## Model

| member | source | states |
|---|---|---|
| `LongText.LongToString` | Membership-management/member-service/src/main/java/com/example/memberservice/service/MemberService.java:43 | the text spliced in for an id, in canonical form: starts with `-` exactly for negative ids, digits otherwise, `"0"` for zero and no leading zero for any other value |
| `LongText.LongRoundTrip` | Membership-management/member-service/src/main/java/com/example/memberservice/service/MemberService.java:43 | the decimal text of every `long` reads back as that `long` |
| `LongText.LongToStringInjective` | Membership-management/member-service/src/main/java/com/example/memberservice/service/MemberService.java:43 | distinct ids never print alike |
| `MemberStore.NotFoundMessageNamesId` | Membership-management/info-service/src/main/java/com/example/infoservice/exception/MemberNotFoundException.java:4-6 | the not-found message `"Member not found with id: " + id` determines the id |
| `MemberStore.MemberService.constructor` | Membership-management/info-service/src/main/java/com/example/infoservice/service/MemberService.java:12-14 | the service starts over the given repository, every row stored under its own id |
| `MemberStore.MemberService.CreateMember` | Membership-management/info-service/src/main/java/com/example/infoservice/service/MemberService.java:17-19 | always saves: no duplicate or existence check, the repository gains exactly one row under a fresh key, the saved member is returned and no other row changes; no already-exists error is possible |
| `MemberStore.MemberService.GetMember` | Membership-management/info-service/src/main/java/com/example/infoservice/service/MemberService.java:22-25 | returns the stored member exactly when the id is present, otherwise not-found carrying that id; the repository is not changed |
| `MemberStore.MemberService.GetAllMembers` | Membership-management/info-service/src/main/java/com/example/infoservice/service/MemberService.java:28-30 | returns exactly the stored members, as many as there are rows |
| `MemberStore.KeyedRowsDistinct` | Membership-management/info-service/src/main/java/com/example/infoservice/service/MemberService.java:28-30 | rows stored under their own ids are pairwise distinct, so listing them loses none |
| `MemberStore.MemberService.UpdateMember` | Membership-management/info-service/src/main/java/com/example/infoservice/service/MemberService.java:33-41 | on a present id only name and contact are overwritten, the stored id kept and the supplied id ignored, other rows unchanged; on an absent id not-found and nothing changes |
| `MemberStore.MemberService.DeleteMember` | Membership-management/info-service/src/main/java/com/example/infoservice/service/MemberService.java:44-49 | on an absent id not-found before any deletion, nothing changes; on a present id exactly that key is removed and every other row kept |
| `AuditProxy.InfoServiceUrl` | Membership-management/member-service/src/main/java/com/example/memberservice/service/MemberService.java:16-18 | the base URL is `INFO_SERVICE_URL` when set, else `http://localhost:8888` |
| `AuditProxy.MemberUriNamesId` | Membership-management/member-service/src/main/java/com/example/memberservice/service/MemberService.java:43 | the path `base + "/members/" + id` names exactly the id it was built from |
| `AuditProxy.CollectionUriNamesNoId` | Membership-management/member-service/src/main/java/com/example/memberservice/service/MemberService.java:27 | the create path `base + "/members"` names no member |
| `AuditProxy.MemberUriInjective` | Membership-management/member-service/src/main/java/com/example/memberservice/service/MemberService.java:59 | different ids are sent to different paths |
| `AuditProxy.DetailsNameId` | Membership-management/member-service/src/main/java/com/example/memberservice/service/MemberService.java:47 | the success details of get, update and delete each determine the id they were built from |
| `AuditProxy.Forwarded` | Membership-management/member-service/src/main/java/com/example/memberservice/service/MemberService.java:31-38 | at most one record is stored and it carries the entry point's tag whatever the outcome; the caller gets a body exactly when a success record was written, and then the call's body unchanged; a failed call records its message and re-raises it; a failed success save is caught and recorded as a failure with the store's message; a failed failure save surfaces the store's error; an empty body records nothing |
| `AuditProxy.ForwardedDefaultingEmpty` | Membership-management/member-service/src/main/java/com/example/memberservice/service/MemberService.java:76-81 | with an empty 2xx answer read as an empty body, every successful call with a working store writes exactly one success record with the entry point's details and answers the body; a record is missing only when the repository refused a save; all other outcomes are as written |
| `AuditProxy.SuccessfulDeleteUnrecorded` | Membership-management/member-service/src/main/java/com/example/memberservice/service/MemberService.java:73-86 | a delete answered with no body records nothing as written, and records DELETE with "Deleted member with id: " + id once the empty answer is defaulted |
| `AuditProxy.MemberService.constructor` | Membership-management/member-service/src/main/java/com/example/memberservice/service/MemberService.java:16-23 | the base URL follows the environment-or-default rule; the history is the repository's existing records |
| `AuditProxy.MemberService.SaveHistory` | Membership-management/member-service/src/main/java/com/example/memberservice/service/MemberService.java:88-95 | builds a fresh record from its arguments and appends it when the save succeeds; earlier records are unchanged; a failed save adds nothing and reports the store's message |
| `AuditProxy.MemberService.Audit` | Membership-management/member-service/src/main/java/com/example/memberservice/service/MemberService.java:31-38 | the success handler followed by the error handler grows the history and answers exactly as `Forwarded` states |
| `AuditProxy.MemberService.CreateMember` | Membership-management/member-service/src/main/java/com/example/memberservice/service/MemberService.java:25-39 | POSTs the payload unchanged to `base + "/members"`; records INSERT with "Created member successfully" on success; history and reply as `Forwarded` states |
| `AuditProxy.MemberService.GetMember` | Membership-management/member-service/src/main/java/com/example/memberservice/service/MemberService.java:41-54 | GETs `base + "/members/" + id`; records SELECT with "Retrieved member with id: " + id on success; history and reply as `Forwarded` states |
| `AuditProxy.MemberService.UpdateMember` | Membership-management/member-service/src/main/java/com/example/memberservice/service/MemberService.java:57-71 | PUTs the payload unchanged to `base + "/members/" + id`; records UPDATE with "Updated member with id: " + id on success; history and reply as `Forwarded` states |
| `AuditProxy.MemberService.DeleteMember` | Membership-management/member-service/src/main/java/com/example/memberservice/service/MemberService.java:73-86 | DELETEs `base + "/members/" + id`; records DELETE with "Deleted member with id: " + id on success; history and reply as `Forwarded` states |

## Findings

| source | as written | input that shows it | evidently intended | confidence | as-written member | corrected member |
|---|---|---|---|---|---|---|
| Membership-management/member-service/src/main/java/com/example/memberservice/service/MemberService.java:76-81 | `bodyToMono(String.class)` completes empty on a response without a body, so the `flatMap` that saves the success record never runs | `deleteMember(7)` against an info-service that deletes member 7 and answers 204 No Content (info-service `MemberController.java:54`) | the DELETE success record "Deleted member with id: 7" is written, as for every other successful call | high, not executed | `AuditProxy.SuccessfulDeleteUnrecorded` | `AuditProxy.ForwardedDefaultingEmpty` |

## Left out

- The HTTP call (WebClient, status handling, timeouts): a foreign library; its outcome is an input of each entry point (a body, an empty body, or a failure with its message).
- The query-history repository's save: an external store; each save's outcome (the timestamp it was stamped with, or the store's error message) is an input.
- `LocalDateTime.now()`: wall-clock time is not modelled; the timestamp comes with the save outcome.
- The repository-assigned `QueryHistory.id`: store-generated, with no meaning; a record's position in the history stands in for it.
- Reading the `INFO_SERVICE_URL` environment variable: the constructor takes its value as an `Option` and keeps only the defaulting rule.
- Reactor scheduling and concurrent requests: the model runs one attempt at a time.
- Both controllers and the exception handler: request routing, status codes and the mapping of exceptions to 404/409 are framework behaviour; only the not-found message text is kept.
- `MemberStore.MemberService.GetAllMembers`: returns the stored members as a set; the repository's iteration order is not modelled (no row is lost or repeated, as its contract states).
- Input validation of new members: no rules are visible in the code.
- `MemberStore.MemberService.CreateMember`: the key the repository generates is a parameter (any key not yet in use); saving a member whose id is already set, which the repository would treat as an update, is not modelled.
- `java.lang.String` nulls (a member without a name, an exception without a message) are not modelled; strings are always present.
- The operation tag is a closed enumeration rather than the strings "INSERT", "SELECT", "UPDATE" and "DELETE" the record stores.
- The request payloads of the proxy are opaque JSON text; it forwards them without looking inside.
