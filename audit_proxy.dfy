/**
  The member-service: a proxy that forwards each member operation to the
  info-service and records the attempt in a query-history repository.

  The HTTP call is not modelled; its outcome is an input of each entry point.
  So is the outcome of every history save (the time it was stamped with, or the
  repository's error), because the repository is an external store.
*/
module AuditProxy {
  import opened Wrappers
  import opened LongText

  /** The operation tag a history record carries. */
  datatype Operation = INSERT | SELECT | UPDATE | DELETE

  /** A wall-clock reading, stamped on a record when it is built. */
  type Timestamp = int

  /** A query-history record as stored; the repository-assigned id is not modelled. */
  datatype QueryHistory = QueryHistory(operation: Operation, success: bool, timestamp: Timestamp, details: string)

  /** How the info-service call ended. */
  datatype CallOutcome =
    | Response(body: string)   // a 2xx answer with a body
    | NoContent                // a 2xx answer without a body: the body stream completes empty
    | Failure(message: string) // transport error, timeout or non-2xx status, with its message

  /** How one save of a history record ended. */
  datatype Save = Saved(at: Timestamp) | Refused(message: string)

  /** What the caller of an entry point receives. */
  datatype Reply = Body(body: string) | Empty | Error(message: string)

  datatype HttpVerb = Post | Get | Put | Delete

  /** The request an entry point sends to the info-service. */
  datatype HttpRequest = HttpRequest(verb: HttpVerb, uri: string, payload: Option<string>)

  const DEFAULT_INFO_SERVICE_URL: string := "http://localhost:8888"

  /** The info-service base URL: the environment's `INFO_SERVICE_URL` when it is set, else the default. */
  function InfoServiceUrl(env: Option<string>): (url: string)
    ensures env.Some? ==> url == env.value
    ensures env.None? ==> url == DEFAULT_INFO_SERVICE_URL
  {
    match env
    case Some(value) => value
    case None => DEFAULT_INFO_SERVICE_URL
  }

  function CollectionUri(base: string): string {
    base + "/members"
  }

  function MemberUri(base: string, id: Long): string {
    base + "/members/" + LongToString(id)
  }

  /** The member id the info-service reads from a request path under `base`, if there is one. */
  function PathId(base: string, uri: string): Option<Long> {
    var prefix := base + "/members/";
    if |prefix| <= |uri| && uri[..|prefix|] == prefix then ParseLong(uri[|prefix|..]) else None
  }

  /** A member path names exactly the id it was built from. */
  lemma MemberUriNamesId(base: string, id: Long)
    ensures PathId(base, MemberUri(base, id)) == Some(id)
  {
    var prefix := base + "/members/";
    assert MemberUri(base, id) == prefix + LongToString(id);
    IdAfterPrefix(prefix, id);
  }

  /** The collection path names no member. */
  lemma CollectionUriNamesNoId(base: string)
    ensures PathId(base, CollectionUri(base)) == None
  {
  }

  /** Different ids are sent to different paths. */
  lemma MemberUriInjective(base: string, a: Long, b: Long)
    ensures MemberUri(base, a) == MemberUri(base, b) ==> a == b
  {
    MemberUriNamesId(base, a);
    MemberUriNamesId(base, b);
  }

  const CREATED_DETAILS: string := "Created member successfully"

  function RetrievedDetails(id: Long): string {
    "Retrieved member with id: " + LongToString(id)
  }

  function UpdatedDetails(id: Long): string {
    "Updated member with id: " + LongToString(id)
  }

  function DeletedDetails(id: Long): string {
    "Deleted member with id: " + LongToString(id)
  }

  /** The success details of the three id-carrying entry points name the id they were built from. */
  lemma DetailsNameId(a: Long, b: Long)
    ensures RetrievedDetails(a) == RetrievedDetails(b) ==> a == b
    ensures UpdatedDetails(a) == UpdatedDetails(b) ==> a == b
    ensures DeletedDetails(a) == DeletedDetails(b) ==> a == b
  {
    PrefixedIdInjective("Retrieved member with id: ", a, b);
    PrefixedIdInjective("Updated member with id: ", a, b);
    PrefixedIdInjective("Deleted member with id: ", a, b);
  }

  /** The records one save adds to the history: the built record if the save went through. */
  function Recorded(operation: Operation, success: bool, details: string, save: Save): seq<QueryHistory> {
    match save
    case Saved(at) => [QueryHistory(operation, success, at, details)]
    case Refused(_) => []
  }

  /** The records an entry point adds to the history and the reply its caller gets. */
  datatype Exchange = Exchange(written: seq<QueryHistory>, reply: Reply)

  /**
    One entry point's effect, as its reactive chain composes it: the success
    handler saves a success record and then answers the body; the error handler
    sits after it, so it catches both a failed call and a failed success save,
    saves a failure record with that error's message and re-raises that error,
    unless its own save fails, whose error then reaches the caller instead.
    `first` is the outcome of the first save the chain attempts, `second` that
    of the save the error handler attempts after a failed success save.
  */
  function Forwarded(operation: Operation, details: string, call: CallOutcome, first: Save, second: Save): (x: Exchange)
    // at most one record reaches the history, and it carries the entry point's tag
    ensures |x.written| <= 1
    ensures forall r :: r in x.written ==> r.operation == operation
    // the caller gets a body exactly when a success record was written, and it is the call's body
    ensures x.reply.Body? <==> (x.written != [] && x.written[0].success)
    ensures x.reply.Body? ==> call.Response? && x.reply.body == call.body
    // success path with a working store
    ensures call.Response? && first.Saved? ==>
      x.written == [QueryHistory(operation, true, first.at, details)] && x.reply == Body(call.body)
    // failed call: one failure record with the call's message, and the same error for the caller
    ensures call.Failure? && first.Saved? ==>
      x.written == [QueryHistory(operation, false, first.at, call.message)] && x.reply == Error(call.message)
    // failed call and failed save: nothing recorded, the store's error reaches the caller
    ensures call.Failure? && first.Refused? ==> x.written == [] && x.reply == Error(first.message)
    // failed success save: caught by the error handler, which records the store's message
    ensures call.Response? && first.Refused? && second.Saved? ==>
      x.written == [QueryHistory(operation, false, second.at, first.message)] && x.reply == Error(first.message)
    ensures call.Response? && first.Refused? && second.Refused? ==>
      x.written == [] && x.reply == Error(second.message)
    // an empty body never reaches the success handler: nothing is recorded
    ensures call.NoContent? ==> x == Exchange([], Empty)
  {
    match call
    case NoContent => Exchange([], Empty)
    case Response(body) =>
      if first.Saved? then Exchange(Recorded(operation, true, details, first), Body(body))
      else Recovered(operation, first.message, second)
    case Failure(message) => Recovered(operation, message, first)
  }

  /** The error handler: save a failure record with the error's message, then re-raise the error. */
  function Recovered(operation: Operation, message: string, save: Save): Exchange {
    Exchange(Recorded(operation, false, message, save), Error(if save.Saved? then message else save.message))
  }

  /**
    The chain as it was evidently meant to behave: an empty 2xx answer counts
    as a success with an empty body, as `.defaultIfEmpty("")` before the
    success handler would make it. Every attempt then leaves one record unless
    the history repository refused a save, and every successful call is
    recorded with its entry point's success details.
  */
  function ForwardedDefaultingEmpty(operation: Operation, details: string, call: CallOutcome, first: Save, second: Save): (x: Exchange)
    ensures |x.written| <= 1
    ensures forall r :: r in x.written ==> r.operation == operation
    // a successful call with a working store: one success record, and the body (empty if there was none)
    ensures !call.Failure? && first.Saved? ==>
      x.written == [QueryHistory(operation, true, first.at, details)]
      && x.reply == Body(if call.Response? then call.body else "")
    // a record is missing only when the repository refused the save that would have written it
    ensures x.written == [] ==> first.Refused? && (call.Failure? || second.Refused?)
    // every other outcome is handled as the chain as written handles it
    ensures !call.NoContent? ==> x == Forwarded(operation, details, call, first, second)
  {
    Forwarded(operation, details, if call.NoContent? then Response("") else call, first, second)
  }

  /**
    A delete that the info-service carries out answers 204 with no body. As
    written, the member-service records nothing for it; with the empty answer
    defaulted, it records the DELETE success the source defines.
  */
  lemma SuccessfulDeleteUnrecorded(id: Long, at: Timestamp, second: Save)
    ensures Forwarded(DELETE, DeletedDetails(id), NoContent, Saved(at), second).written == []
    ensures ForwardedDefaultingEmpty(DELETE, DeletedDetails(id), NoContent, Saved(at), second).written
      == [QueryHistory(DELETE, true, at, DeletedDetails(id))]
  {
  }

  class MemberService {
    /** The info-service base URL, fixed at construction. */
    const infoServiceUrl: string
    /** The query-history repository's records, in the order they were saved. */
    var history: seq<QueryHistory>

    constructor (env: Option<string>, stored: seq<QueryHistory>)
      ensures infoServiceUrl == InfoServiceUrl(env)
      ensures history == stored
    {
      infoServiceUrl := InfoServiceUrl(env);
      history := stored;
    }

    /**
      Builds a fresh record and saves it. Earlier records are never touched:
      the history only grows, and only by this record, when the save succeeds.
      Answers the repository's error message when the save fails.
    */
    method SaveHistory(operation: Operation, success: bool, details: string, save: Save) returns (refused: Option<string>)
      modifies this
      ensures history == old(history) + Recorded(operation, success, details, save)
      ensures refused.Some? <==> save.Refused?
      ensures save.Refused? ==> refused.value == save.message
    {
      match save
      case Saved(at) =>
        var record := QueryHistory(operation, success, at, details);
        history := history + [record];
        refused := None;
      case Refused(message) =>
        refused := Some(message);
    }

    /** The chain every entry point runs after its request: success handler, then error handler. */
    method Audit(operation: Operation, details: string, call: CallOutcome, first: Save, second: Save) returns (reply: Reply)
      modifies this
      ensures history == old(history) + Forwarded(operation, details, call, first, second).written
      ensures reply == Forwarded(operation, details, call, first, second).reply
    {
      reply := Empty;
      var caught: Option<string> := None;
      var retry := first;
      match call {
        case NoContent =>
        case Response(body) =>
          var refused := SaveHistory(operation, true, details, first);
          if refused.None? {
            reply := Body(body);
          } else {
            caught, retry := refused, second;
          }
        case Failure(message) =>
          caught := Some(message);
      }
      if caught.Some? {
        var refused := SaveHistory(operation, false, caught.value, retry);
        reply := Error(if refused.Some? then refused.value else caught.value);
      }
    }

    /** POST `memberData` to the members collection; on success the record is INSERT "Created member successfully". */
    method CreateMember(memberData: string, call: CallOutcome, first: Save, second: Save) returns (request: HttpRequest, reply: Reply)
      modifies this
      ensures request == HttpRequest(Post, CollectionUri(infoServiceUrl), Some(memberData))
      ensures history == old(history) + Forwarded(INSERT, CREATED_DETAILS, call, first, second).written
      ensures reply == Forwarded(INSERT, CREATED_DETAILS, call, first, second).reply
    {
      request := HttpRequest(Post, CollectionUri(infoServiceUrl), Some(memberData));
      reply := Audit(INSERT, CREATED_DETAILS, call, first, second);
    }

    /** GET the member's path; on success the record is SELECT "Retrieved member with id: <id>". */
    method GetMember(id: Long, call: CallOutcome, first: Save, second: Save) returns (request: HttpRequest, reply: Reply)
      modifies this
      ensures request == HttpRequest(Get, MemberUri(infoServiceUrl, id), None)
      ensures history == old(history) + Forwarded(SELECT, RetrievedDetails(id), call, first, second).written
      ensures reply == Forwarded(SELECT, RetrievedDetails(id), call, first, second).reply
    {
      request := HttpRequest(Get, MemberUri(infoServiceUrl, id), None);
      reply := Audit(SELECT, RetrievedDetails(id), call, first, second);
    }

    /** PUT `memberData` to the member's path; on success the record is UPDATE "Updated member with id: <id>". */
    method UpdateMember(id: Long, memberData: string, call: CallOutcome, first: Save, second: Save) returns (request: HttpRequest, reply: Reply)
      modifies this
      ensures request == HttpRequest(Put, MemberUri(infoServiceUrl, id), Some(memberData))
      ensures history == old(history) + Forwarded(UPDATE, UpdatedDetails(id), call, first, second).written
      ensures reply == Forwarded(UPDATE, UpdatedDetails(id), call, first, second).reply
    {
      request := HttpRequest(Put, MemberUri(infoServiceUrl, id), Some(memberData));
      reply := Audit(UPDATE, UpdatedDetails(id), call, first, second);
    }

    /** DELETE the member's path; on success the record is DELETE "Deleted member with id: <id>". */
    method DeleteMember(id: Long, call: CallOutcome, first: Save, second: Save) returns (request: HttpRequest, reply: Reply)
      modifies this
      ensures request == HttpRequest(Delete, MemberUri(infoServiceUrl, id), None)
      ensures history == old(history) + Forwarded(DELETE, DeletedDetails(id), call, first, second).written
      ensures reply == Forwarded(DELETE, DeletedDetails(id), call, first, second).reply
    {
      request := HttpRequest(Delete, MemberUri(infoServiceUrl, id), None);
      reply := Audit(DELETE, DeletedDetails(id), call, first, second);
    }
  }
}

/** What a caller can conclude from the entry points' contracts alone, on three sample exchanges. */
module AuditProxyScenarios {
  import opened Wrappers
  import opened AuditProxy

  method Scenarios(now: Timestamp, body: string, notFound: string, transport: string) {
    var proxy := new MemberService(None, []);
    assert proxy.infoServiceUrl == "http://localhost:8888";

    // a create that the info-service accepts
    var request, reply := proxy.CreateMember("{\"name\":\"Alice\",\"contact\":\"a@x.com\"}", Response(body), Saved(now), Saved(now));
    assert request.uri == "http://localhost:8888/members";
    assert reply == Body(body);
    assert proxy.history == [QueryHistory(INSERT, true, now, "Created member successfully")];

    // a read of a missing member
    request, reply := proxy.GetMember(42, Failure(notFound), Saved(now), Saved(now));
    assert reply == Error(notFound);
    assert proxy.history[1] == QueryHistory(SELECT, false, now, notFound);

    // a delete while the info-service is unreachable
    request, reply := proxy.DeleteMember(7, Failure(transport), Saved(now), Saved(now));
    assert reply == Error(transport);
    assert |proxy.history| == 3 && proxy.history[2] == QueryHistory(DELETE, false, now, transport);

    // a delete the info-service carries out (204, no body) leaves no record and an empty answer
    request, reply := proxy.DeleteMember(7, NoContent, Saved(now), Saved(now));
    assert reply == Empty;
    assert |proxy.history| == 3;
  }
}
