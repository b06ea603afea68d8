/**
 * app/api/webhooks/clerk/route.ts: the identity provider's webhook. It checks
 * the secret and the signature headers, verifies the event, and turns
 * `user.created`, `user.updated` and `user.deleted` into one user action each.
 */
module ClerkWebhook {
  import opened Js
  import opened Http
  import Store
  import UserActions
  import Mongoose

  /** The fields of `event.data` the route reads. */
  datatype UserData = UserData(id: string, emailAddresses: seq<string>, imageUrl: string,
                               firstName: string, lastName: string, username: string)

  datatype ClerkEvent = ClerkEvent(eventType: string, data: UserData)

  /** The outcome of `wh.verify`: the event, or what it threw. */
  datatype Verification = Verified(event: ClerkEvent) | VerificationFailed(error: Thrown)

  /** The `svix-id`, `svix-timestamp` and `svix-signature` headers (`None` when absent). */
  datatype SvixHeaders = SvixHeaders(id: Option<string>, timestamp: Option<string>, signature: Option<string>)

  datatype CreateUserParams = CreateUserParams(clerkId: string, email: string, username: string,
                                               firstName: string, lastName: string, photo: string)

  datatype UpdateUserParams = UpdateUserParams(firstName: string, lastName: string, username: string, photo: string)

  /** A call into the user actions, or the write of `publicMetadata.userId` to the identity provider. */
  datatype Call =
    | CreateUser(params: CreateUserParams)
    | UpdateUser(clerkId: string, update: UpdateUserParams)
    | DeleteUser(clerkId: string)
    | UpdateUserMetadata(clerkId: string, userId: string)

  /** How each collaborator ends if it is called; `None` is a falsy result. */
  datatype Replies = Replies(created: Completion<Option<Store.User>>, metadataWrite: Option<Thrown>,
                             updated: Completion<Option<Store.User>>, deleted: Completion<Option<Store.User>>)

  datatype Handled = Handled(outcome: Outcome, calls: seq<Call>)

  const MissingSecret :=
    ErrorObject("Please add the WEBHOOK_SECRET env. variable from Clerk dashboard to your .env file.")

  const NoSvixHeaders := Response(400, Text("Error occured -- no svix headers"))

  const VerificationError := Response(400, Text("Error occured"))

  predicate Present(value: Option<string>) {
    value.Some? && value.value != ""
  }

  predicate HeadersPresent(h: SvixHeaders) {
    Present(h.id) && Present(h.timestamp) && Present(h.signature)
  }

  predicate IsUserAction(c: Call) {
    c.CreateUser? || c.UpdateUser? || c.DeleteUser?
  }

  /** `{ message: 'OK', user }` for a truthy result, `{ message: 'Error occured', user: null }` otherwise. */
  function UserResponse(user: Option<Store.User>): Response {
    if user.Some? then JsonResponse("OK", UserField(user)) else JsonResponse("Error occured", UserField(None))
  }

  /** The `createUser` argument built from a `user.created` event. */
  function NewUserParams(data: UserData): CreateUserParams
    requires |data.emailAddresses| > 0
  {
    CreateUserParams(data.id, data.emailAddresses[0], data.username, data.firstName, data.lastName, data.imageUrl)
  }

  /** `user.created`: reading the first address of an empty list throws before
      any call; otherwise the user is created and, when one comes back, the
      identity provider is told its `_id`. */
  function UserCreated(data: UserData, replies: Replies): (h: Handled)
    ensures h.calls == [] <==> |data.emailAddresses| == 0
    ensures h.calls == [] ==> h.outcome == Raised(PropertyReadError(Undefined, "email_address"))
    ensures h.calls != [] ==> h.calls[0] == CreateUser(NewUserParams(data))
    ensures |h.calls| <= 2
    ensures |h.calls| == 2 <==> h.calls != [] && replies.created.Returned? && replies.created.value.Some?
    ensures |h.calls| == 2 ==> h.calls[1] == UpdateUserMetadata(data.id, replies.created.value.value.id)
    ensures h.calls != [] && replies.created.Threw? ==> h.outcome == Raised(replies.created.thrown)
  {
    if |data.emailAddresses| == 0 then
      Handled(Raised(PropertyReadError(Undefined, "email_address")), [])
    else
      var create := CreateUser(NewUserParams(data));
      match replies.created
      case Threw(e) => Handled(Raised(e), [create])
      case Returned(None) => Handled(Responded(UserResponse(None)), [create])
      case Returned(Some(u)) =>
        var calls := [create, UpdateUserMetadata(data.id, u.id)];
        if replies.metadataWrite.Some? then Handled(Raised(replies.metadataWrite.value), calls)
        else Handled(Responded(UserResponse(Some(u))), calls)
  }

  /** The outcome of an action that is answered with `UserResponse`. */
  function Answer(reply: Completion<Option<Store.User>>): Outcome {
    match reply
    case Threw(e) => Raised(e)
    case Returned(u) => Responded(UserResponse(u))
  }

  /** `POST`. `secret` is `WEBHOOK_SECRET`. */
  function Post(secret: Option<string>, headers: SvixHeaders, verification: Verification, replies: Replies): (h: Handled)
    ensures !Present(secret) ==> h == Handled(Raised(MissingSecret), [])
    ensures Present(secret) && !HeadersPresent(headers) ==> h == Handled(Responded(NoSvixHeaders), [])
    ensures Present(secret) && HeadersPresent(headers) && verification.VerificationFailed? ==>
      h == Handled(Responded(VerificationError), [])
    ensures h.calls != [] ==> Present(secret) && HeadersPresent(headers) && verification.Verified?
    ensures |h.calls| <= 2
    ensures forall i :: 0 < i < |h.calls| ==> !IsUserAction(h.calls[i])
    ensures h.calls != [] ==> IsUserAction(h.calls[0])
    ensures |h.calls| == 2 ==> h.calls[0].CreateUser? && h.calls[1].UpdateUserMetadata?
                               && h.calls[1].clerkId == h.calls[0].params.clerkId
    ensures verification.Verified? && verification.event.eventType !in {"user.created", "user.updated", "user.deleted"} ==>
      h.calls == [] && (Present(secret) && HeadersPresent(headers) ==> h.outcome == Responded(EmptyOk))
  {
    if !Present(secret) then Handled(Raised(MissingSecret), [])
    else if !HeadersPresent(headers) then Handled(Responded(NoSvixHeaders), [])
    else match verification
      case VerificationFailed(_) => Handled(Responded(VerificationError), [])
      case Verified(event) =>
        var data := event.data;
        if event.eventType == "user.created" then UserCreated(data, replies)
        else if event.eventType == "user.updated" then
          Handled(Answer(replies.updated),
                  [UpdateUser(data.id, UpdateUserParams(data.firstName, data.lastName, data.username, data.imageUrl))])
        else if event.eventType == "user.deleted" then
          Handled(Answer(replies.deleted), [DeleteUser(data.id)])
        else Handled(Responded(EmptyOk), [])
  }

  /** A well-signed request, as far as the route's own checks go. */
  predicate Accepted(secret: Option<string>, headers: SvixHeaders, verification: Verification) {
    Present(secret) && HeadersPresent(headers) && verification.Verified?
  }

  /** `user.created`: the new user gets the event's id and first email address and
      its profile fields, and the identity provider learns the new `_id` only
      when a user comes back. */
  lemma CreatedEvent(secret: Option<string>, headers: SvixHeaders, verification: Verification, replies: Replies)
    requires Accepted(secret, headers, verification) && verification.event.eventType == "user.created"
    requires |verification.event.data.emailAddresses| > 0
    ensures var d := verification.event.data;
            var h := Post(secret, headers, verification, replies);
            && h.calls[0] == CreateUser(CreateUserParams(d.id, d.emailAddresses[0], d.username, d.firstName, d.lastName, d.imageUrl))
            && (|h.calls| == 2 <==> replies.created.Returned? && replies.created.value.Some?)
            && (|h.calls| == 2 ==> h.calls[1] == UpdateUserMetadata(d.id, replies.created.value.value.id))
            && (replies.created == Returned(None) ==> h.outcome == Responded(JsonResponse("Error occured", UserField(None))))
            && (replies.created.Returned? && replies.created.value.Some? && replies.metadataWrite.None? ==>
                  h.outcome == Responded(JsonResponse("OK", UserField(replies.created.value))))
  {
  }

  /** A `user.created` event without an email address throws before any call. */
  lemma CreatedWithoutEmail(secret: Option<string>, headers: SvixHeaders, verification: Verification, replies: Replies)
    requires Accepted(secret, headers, verification) && verification.event.eventType == "user.created"
    requires verification.event.data.emailAddresses == []
    ensures Post(secret, headers, verification, replies).outcome.Raised?
    ensures Post(secret, headers, verification, replies).calls == []
  {
  }

  /** `user.updated` sends the profile fields and no email. */
  lemma UpdatedEvent(secret: Option<string>, headers: SvixHeaders, verification: Verification, replies: Replies)
    requires Accepted(secret, headers, verification) && verification.event.eventType == "user.updated"
    ensures var d := verification.event.data;
            var h := Post(secret, headers, verification, replies);
            && h.calls == [UpdateUser(d.id, UpdateUserParams(d.firstName, d.lastName, d.username, d.imageUrl))]
            && (replies.updated.Returned? ==> h.outcome == Responded(UserResponse(replies.updated.value)))
  {
  }

  /** `user.deleted` calls `deleteUser` with the event's id and reports its result. */
  lemma DeletedEvent(secret: Option<string>, headers: SvixHeaders, verification: Verification, replies: Replies)
    requires Accepted(secret, headers, verification) && verification.event.eventType == "user.deleted"
    ensures var h := Post(secret, headers, verification, replies);
            && h.calls == [DeleteUser(verification.event.data.id)]
            && (replies.deleted == Returned(None) ==> MessageOf(h.outcome) == Some("Error occured"))
            && (replies.deleted.Returned? && replies.deleted.value.Some? ==> MessageOf(h.outcome) == Some("OK"))
  {
  }

  /** Deleting a user the store does not know: `deleteUser` throws rather than
      returning null, so the route raises instead of answering 'Error occured'. */
  lemma DeletedUnknownUserRaises(secret: Option<string>, headers: SvixHeaders, verification: Verification, replies: Replies)
    requires Accepted(secret, headers, verification) && verification.event.eventType == "user.deleted"
    requires replies.deleted == Threw(UserActions.UserNotFound)
    ensures Post(secret, headers, verification, replies).outcome == Raised(ErrorObject("Error: User not found"))
  {
    UserActions.UserNotFoundMessage();
  }

  /** A `user.deleted` event with `deleteUser` carried out on the store. For an
      id no stored user has, `deleteUser` throws and the route raises
      `Error: User not found` with every user kept; for a known id that user
      alone is removed and the route answers 'OK'. */
  method DeliverDeleted(db: Store.Database, secret: Option<string>, headers: SvixHeaders,
                        verification: Verification, replies: Replies, settlement: Mongoose.Settlement,
                        findReply: Store.QueryReply, deleteReply: Store.QueryReply)
    returns (h: Handled)
    requires db.Valid()
    requires Accepted(secret, headers, verification) && verification.event.eventType == "user.deleted"
    modifies db, db.cache
    ensures db.Valid()
    ensures h.calls == [DeleteUser(verification.event.data.id)]
    ensures var clerkId := verification.event.data.id;
            var connected := Mongoose.Connect(old(db.cache.State()), db.mongodbUrl, settlement).0.Returned?;
            && (connected && findReply.Answers? && !UserActions.HasClerkId(old(db.users), clerkId) ==>
                  h.outcome == Raised(ErrorObject("Error: User not found")) && db.users == old(db.users))
            && (connected && findReply.Answers? && UserActions.HasClerkId(old(db.users), clerkId)
                && deleteReply.Answers? ==>
                  MessageOf(h.outcome) == Some("OK")
                  && db.users == Store.WithoutClerkId(old(db.users), clerkId))
  {
    var r := UserActions.DeleteUser(db, verification.event.data.id, settlement, findReply, deleteReply);
    h := Post(secret, headers, verification, replies.(deleted := r));
    UserActions.UserNotFoundMessage();
  }
}
