/** The support-request resolver (src/resolvers/request.ts): a request is
    created after validation, answered by e-mail, and may be deleted only
    once it has been answered; a batch deletion happens entirely or not at
    all. */
module RequestResolver {
  import opened Wrappers
  import opened Documents
  import opened Store
  import opened Validation
  import Helpers
  import Listing

  const REQUEST_NOT_FOUND := "Request not found"
  const REPLY_FIRST := "Please reply to this request before deleting"
  const NO_IDS := "Please provide some ids"
  const SOME_NOT_FOUND := "Some requests are not found"
  const REPLY_ALL_FIRST := "Please reply to all unreplied requests before deleting"

  // ---------------------------------------------------------------------------
  // requests, request

  /** `requests(params)`: every request, and the options of the page. */
  method RequestsQuery(db: Db, params: Listing.ParamsArgs)
    returns (items: map<string, SupportRequest>, options: Listing.QueryOptions)
    ensures items == db.requests
    ensures options == Listing.QueryOptionsFor(Some(params))
  {
    options := Listing.BuildQueryOptions(Some(params));
    items := db.requests;
  }

  /** `request(id)` */
  method RequestQuery(db: Db, isValid: string -> bool, id: string) returns (r: Result<SupportRequest, Failure>)
    ensures r.Ok? <==> isValid(id) && id in db.requests
    ensures r.Ok? ==> r.value == db.requests[id]
    ensures isValid(id) && id !in db.requests ==> r == Err(Fail(REQUEST_NOT_FOUND))
  {
    r := FindById(db.requests, isValid, id, REQUEST_NOT_FOUND);
  }

  // ---------------------------------------------------------------------------
  // deleteRequest

  /** `deleteRequest(id)`: the outcome and the requests afterwards. */
  function DeleteRequestResult(requests: map<string, SupportRequest>, isValid: string -> bool, id: string)
    : (r: (Result<string, Failure>, map<string, SupportRequest>))
    ensures !isValid(id) ==> r.0 == Err(Fail(INVALID_ID))
    ensures isValid(id) && id !in requests ==> r.0 == Err(Fail(REQUEST_NOT_FOUND))
    ensures isValid(id) && id in requests && !requests[id].replied ==> r.0 == Err(Fail(REPLY_FIRST))
    ensures r.0.Ok? <==> isValid(id) && id in requests && requests[id].replied
    ensures r.0.Ok? ==> r.0.value == SUCCESS && r.1 == requests - {id}
    ensures r.0.Err? ==> r.1 == requests
  {
    if !isValid(id) then (Err(Fail(INVALID_ID)), requests)
    else if id !in requests then (Err(Fail(REQUEST_NOT_FOUND)), requests)
    else if !requests[id].replied then (Err(Fail(REPLY_FIRST)), requests)
    else (Ok(SUCCESS), requests - {id})
  }

  method DeleteRequest(db: Db, isValid: string -> bool, id: string) returns (r: Result<string, Failure>)
    modifies db`requests
    ensures (r, db.requests) == DeleteRequestResult(old(db.requests), isValid, id)
  {
    if !isValid(id) {
      return Err(Fail(INVALID_ID));
    }
    if id !in db.requests {
      return Err(Fail(REQUEST_NOT_FOUND));
    }
    var request := db.requests[id];
    if !request.replied {
      return Err(Fail(REPLY_FIRST));
    }
    db.requests := db.requests - {id};
    return Ok(SUCCESS);
  }

  // ---------------------------------------------------------------------------
  // deleteRequests

  /** The ids listed in `s`, each once. */
  function Elements(s: seq<string>): set<string> {
    set x | x in s
  }

  /** A list has at least as many entries as distinct ids, and exactly as
      many when no id repeats. */
  lemma {:induction false} ElementsCount(s: seq<string>)
    ensures |Elements(s)| <= |s|
    ensures |Elements(s)| == |s| <==> Helpers.NoDuplicates(s)
  {
    if s != [] {
      var last, init := s[|s| - 1], s[..|s| - 1];
      ElementsCount(init);
      assert s == init + [last];
      assert Elements(s) == Elements(init) + {last};
      if last in init {
        assert Elements(s) == Elements(init);
        assert !Helpers.NoDuplicates(s) by {
          var k :| 0 <= k < |init| && init[k] == last;
          assert s[k] == s[|s| - 1];
        }
      } else {
        assert |Elements(s)| == |Elements(init)| + 1;
        if Helpers.NoDuplicates(init) {
          assert Helpers.NoDuplicates(s) by {
            forall i, j | 0 <= i < j < |s| ensures s[i] != s[j] {
              if j < |s| - 1 {
                assert s[i] == init[i] && s[j] == init[j];
              } else {
                assert s[i] == init[i];
              }
            }
          }
        } else {
          assert !Helpers.NoDuplicates(s) by {
            var i, j :| 0 <= i < j < |init| && init[i] == init[j];
            assert s[i] == s[j];
          }
        }
      }
    }
  }

  /** `Request.find({ _id: ids })`: the stored requests among the ids, each once. */
  function Found(requests: map<string, SupportRequest>, ids: seq<string>): set<string> {
    set id | id in ids && id in requests
  }

  /** As many requests are found as ids were given exactly when every id is
      stored and no id is given twice. */
  lemma FoundAll(requests: map<string, SupportRequest>, ids: seq<string>)
    ensures |Found(requests, ids)| == |ids| <==> Helpers.NoDuplicates(ids) && forall i :: 0 <= i < |ids| ==> ids[i] in requests
  {
    var found, listed := Found(requests, ids), Elements(ids);
    ElementsCount(ids);
    assert found <= listed;
    if |found| == |ids| {
      assert |listed - found| == |listed| - |found|;
      assert listed - found == {};
      forall i | 0 <= i < |ids| ensures ids[i] in requests {
        assert ids[i] in listed;
      }
    }
    if forall i :: 0 <= i < |ids| ==> ids[i] in requests {
      assert found == listed;
    }
  }

  /** `deleteRequests(ids)`: the outcome and the requests afterwards. */
  function DeleteRequestsResult(requests: map<string, SupportRequest>, isValid: string -> bool, ids: seq<string>)
    : (r: (Result<string, Failure>, map<string, SupportRequest>))
  {
    if |ids| == 0 then (Err(Fail(NO_IDS)), requests)
    else if !(forall i :: 0 <= i < |ids| ==> isValid(ids[i])) then (Err(Fail(INVALID_ID)), requests)
    else
      var found := Found(requests, ids);
      if |found| != |ids| then (Err(Fail(SOME_NOT_FOUND)), requests)
      else if !(forall id | id in found :: requests[id].replied) then (Err(Fail(REPLY_ALL_FIRST)), requests)
      else (Ok(SUCCESS), map id | id in requests && id !in ids :: requests[id])
  }

  /** The batch is all or nothing: it succeeds exactly when at least one id
      is given, every id is a valid ObjectId of a stored, answered request
      and no id is listed twice, and then removes exactly the listed
      requests; otherwise nothing is removed. */
  lemma DeleteRequestsAllOrNothing(requests: map<string, SupportRequest>, isValid: string -> bool, ids: seq<string>)
    ensures var r := DeleteRequestsResult(requests, isValid, ids);
      (r.0.Ok? <==> (|ids| > 0 && Helpers.NoDuplicates(ids) &&
        forall i :: 0 <= i < |ids| ==> isValid(ids[i]) && ids[i] in requests && requests[ids[i]].replied)) &&
      (r.0.Err? ==> r.1 == requests) &&
      (r.0.Ok? ==> forall id :: id in r.1 <==> id in requests && id !in ids) &&
      (r.0.Ok? ==> forall id | id in r.1 :: r.1[id] == requests[id])
  {
    FoundAll(requests, ids);
    var found := Found(requests, ids);
    if |found| == |ids| && forall id | id in found :: requests[id].replied {
      forall i | 0 <= i < |ids| && ids[i] in requests ensures requests[ids[i]].replied {
        assert ids[i] in found;
      }
    }
  }

  /** An id listed twice sinks the batch even when its request is stored and
      answered: the store finds it once. */
  lemma RepeatedIdRejected(requests: map<string, SupportRequest>, isValid: string -> bool, id: string)
    requires isValid(id) && id in requests && requests[id].replied
    ensures DeleteRequestsResult(requests, isValid, [id, id]) == (Err(Fail(SOME_NOT_FOUND)), requests)
  {
    assert Found(requests, [id, id]) == {id};
  }

  method DeleteRequests(db: Db, isValid: string -> bool, ids: seq<string>) returns (r: Result<string, Failure>)
    modifies db`requests
    ensures (r, db.requests) == DeleteRequestsResult(old(db.requests), isValid, ids)
  {
    if |ids| == 0 {
      return Err(Fail(NO_IDS));
    }
    var areAllObjectIds := forall i :: 0 <= i < |ids| ==> isValid(ids[i]);
    if !areAllObjectIds {
      return Err(Fail(INVALID_ID));
    }
    var found := Found(db.requests, ids);
    if |found| != |ids| {
      return Err(Fail(SOME_NOT_FOUND));
    }
    var haveAllBeenReplied := forall id | id in found :: db.requests[id].replied;
    if !haveAllBeenReplied {
      return Err(Fail(REPLY_ALL_FIRST));
    }
    db.requests := map id | id in db.requests && id !in ids :: db.requests[id];
    return Ok(SUCCESS);
  }

  // ---------------------------------------------------------------------------
  // replyRequest

  /** `replyRequest({id, message})`; `mail` is the mail service's answer. */
  function ReplyRequestResult(requests: map<string, SupportRequest>, isValid: string -> bool, id: string,
                              message: string, mail: Delivery)
    : (r: (Result<string, Failure>, map<string, SupportRequest>, seq<Effect>))
    ensures !isValid(id) ==> r.0 == Err(Fail(INVALID_ID))
    ensures isValid(id) && id !in requests ==> r.0 == Err(Fail(REQUEST_NOT_FOUND))
    ensures r.0.Ok? <==> isValid(id) && id in requests && mail.Sent?
    ensures r.0.Err? ==> r.1 == requests && r.2 == []
    ensures isValid(id) && id in requests && mail.Refused? ==> r.0 == Err(Fail(mail.message))
    ensures r.0.Ok? ==> (r.0.value == SUCCESS && r.1 == requests[id := requests[id].(replied := true)] &&
      r.2 == [RequestReplyMail(id, message)])
  {
    if !isValid(id) then (Err(Fail(INVALID_ID)), requests, [])
    else if id !in requests then (Err(Fail(REQUEST_NOT_FOUND)), requests, [])
    else if mail.Refused? then (Err(Fail(mail.message)), requests, [])
    else (Ok(SUCCESS), requests[id := requests[id].(replied := true)], [RequestReplyMail(id, message)])
  }

  /** A request counts as answered only once a reply has gone out: after a
      reply and a deletion attempt, the request is gone exactly when the
      reply was delivered. */
  lemma ReplyThenDelete(requests: map<string, SupportRequest>, isValid: string -> bool, id: string,
                        message: string, mail: Delivery)
    requires isValid(id) && id in requests && !requests[id].replied
    ensures var replied := ReplyRequestResult(requests, isValid, id, message, mail).1;
      var deleted := DeleteRequestResult(replied, isValid, id);
      deleted.0.Ok? <==> mail.Sent?
  {
  }

  method ReplyRequest(db: Db, isValid: string -> bool, id: string, message: string, mail: Delivery)
    returns (r: Result<string, Failure>)
    modifies db`requests, db`effects
    ensures var expected := ReplyRequestResult(old(db.requests), isValid, id, message, mail);
      r == expected.0 && db.requests == expected.1 && db.effects == old(db.effects) + expected.2
  {
    if !isValid(id) {
      return Err(Fail(INVALID_ID));
    }
    if id !in db.requests {
      return Err(Fail(REQUEST_NOT_FOUND));
    }
    var request := db.requests[id];
    if mail.Refused? {
      return Err(Fail(mail.message));
    }
    db.Emit(RequestReplyMail(id, message));
    db.requests := db.requests[id := request.(replied := true)];
    return Ok(SUCCESS);
  }

  // ---------------------------------------------------------------------------
  // createRequest

  function RequestInput(email: string, subject: string, message: string): map<string, string> {
    map["email" := email, "subject" := subject, "message" := message]
  }

  /** The request schema passes exactly a valid address of at most 255
      characters with a non-empty subject and message within their limits. */
  lemma RequestAccepted(isEmail: string -> bool, email: string, subject: string, message: string)
    ensures Validate(REQUEST_SCHEMA, RequestInput(email, subject, message), isEmail) == [] <==>
      isEmail(email) && |email| <= EMAIL_MAX && 0 < |subject| <= SUBJECT_MAX && 0 < |message| <= MESSAGE_MAX
  {
    var input := RequestInput(email, subject, message);
    ValidateEmptyIffAllAccepted(REQUEST_SCHEMA, input, isEmail);
    assert Field(input, "email") == Some(email) && Field(input, "subject") == Some(subject);
    assert Field(input, "message") == Some(message);
    assert REQUEST_SCHEMA[0].1 == EmailRule && REQUEST_SCHEMA[1].1 == TextRule("Subject", SUBJECT_MAX);
    assert REQUEST_SCHEMA[2].1 == TextRule("Message", MESSAGE_MAX);
  }

  /** `createRequest({email, subject, message})`: `newId` is the new
      document's id, `notify` and `confirm` the mail service's answers to
      the admin notification and the confirmation, which are sent together. */
  function CreateRequestResult(requests: map<string, SupportRequest>, isEmail: string -> bool,
                               email: string, subject: string, message: string, newId: string,
                               notify: Delivery, confirm: Delivery)
    : (r: (Result<string, Failure>, map<string, SupportRequest>, seq<Effect>))
    ensures var errors := Validate(REQUEST_SCHEMA, RequestInput(email, subject, message), isEmail);
      errors != [] ==> r == (Err(FieldErrors(FoldErrors(errors))), requests, [])
    ensures r.1 != requests ==> r.1 == requests[newId := SupportRequest(email, subject, message, false)]
    ensures r.1 != requests || r.0.Ok? ==> (
      isEmail(email) && |email| <= EMAIL_MAX && 0 < |subject| <= SUBJECT_MAX && 0 < |message| <= MESSAGE_MAX)
    ensures r.0.Ok? <==> (isEmail(email) && |email| <= EMAIL_MAX && 0 < |subject| <= SUBJECT_MAX &&
      0 < |message| <= MESSAGE_MAX && notify.Sent? && confirm.Sent?)
    ensures r.0.Ok? ==> (r.0.value == SUCCESS && r.1 == requests[newId := SupportRequest(email, subject, message, false)] &&
      r.2 == [RequestAdminNotification(newId), RequestConfirmationMail(newId)])
    // Valid input is stored before the mails go out, so a refused mail
    // still leaves it stored.
    ensures (isEmail(email) && |email| <= EMAIL_MAX && 0 < |subject| <= SUBJECT_MAX && 0 < |message| <= MESSAGE_MAX) ==>
      r.1 == requests[newId := SupportRequest(email, subject, message, false)]
  {
    var errors := Validate(REQUEST_SCHEMA, RequestInput(email, subject, message), isEmail);
    RequestAccepted(isEmail, email, subject, message);
    if errors != [] then (Err(FieldErrors(FoldErrors(errors))), requests, [])
    else
      var requests' := requests[newId := SupportRequest(email, subject, message, false)];
      var sent := (if notify.Sent? then [RequestAdminNotification(newId)] else [])
                + (if confirm.Sent? then [RequestConfirmationMail(newId)] else []);
      if notify.Refused? then (Err(Fail(notify.message)), requests', sent)
      else if confirm.Refused? then (Err(Fail(confirm.message)), requests', sent)
      else (Ok(SUCCESS), requests', sent)
  }

  method CreateRequest(db: Db, isEmail: string -> bool, email: string, subject: string, message: string,
                       newId: string, notify: Delivery, confirm: Delivery)
    returns (r: Result<string, Failure>)
    modifies db`requests, db`effects
    ensures var expected := CreateRequestResult(old(db.requests), isEmail, email, subject, message, newId, notify, confirm);
      r == expected.0 && db.requests == expected.1 && db.effects == old(db.effects) + expected.2
  {
    var errors := GetValidationErrors(REQUEST_SCHEMA, RequestInput(email, subject, message), isEmail);
    if errors.Some? {
      return Err(FieldErrors(errors.value));
    }
    db.requests := db.requests[newId := SupportRequest(email, subject, message, false)];
    if notify.Sent? {
      db.Emit(RequestAdminNotification(newId));
    }
    if confirm.Sent? {
      db.Emit(RequestConfirmationMail(newId));
    }
    if notify.Refused? {
      return Err(Fail(notify.message));
    }
    if confirm.Refused? {
      return Err(Fail(confirm.message));
    }
    return Ok(SUCCESS);
  }
}
