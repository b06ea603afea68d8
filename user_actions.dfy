/**
 * lib/actions/user.actions.ts: deleting a user by identity-provider id.
 */
module UserActions {
  import opened Js
  import Utils
  import Mongoose
  import opened Store

  /** What `deleteUser` throws when no user has the id. */
  const UserNotFound := Utils.HandleError(ErrorObject("User not found"))

  lemma UserNotFoundMessage()
    ensures UserNotFound == ErrorObject("Error: User not found")
  {
  }

  /** Some user has the clerk id. */
  ghost predicate HasClerkId(users: map<string, User>, clerkId: string) {
    exists id :: id in users && users[id].clerkId == clerkId
  }

  /** `deleteUser(clerkId)`: connect, find the user by `clerkId`, delete it by
      `_id`, and return a copy of the deleted document (null if the delete found
      nothing). Every failure is rethrown through `handleError`. `settlement` is
      what `mongoose.connect` would give if it were called, and `findReply` and
      `deleteReply` how the store answers the lookup and the delete. */
  method DeleteUser(db: Database, clerkId: string, settlement: Mongoose.Settlement,
                    findReply: QueryReply, deleteReply: QueryReply)
    returns (r: Completion<Option<User>>)
    requires db.Valid()
    modifies db, db.cache
    ensures db.Valid()
    ensures db.transactions == old(db.transactions)
    ensures var step := Mongoose.Connect(old(db.cache.State()), db.mongodbUrl, settlement);
            && db.cache.State() == step.1
            && (step.0.Threw? ==>
                  r == Threw(Utils.HandleError(step.0.thrown)) && db.users == old(db.users) && db.log == old(db.log))
            && (step.0.Returned? && findReply.Fails? ==>
                  r == Threw(Utils.HandleError(findReply.error)) && db.users == old(db.users)
                  && db.log == old(db.log) + [FindUserByClerkId(clerkId)])
            && (step.0.Returned? && findReply.Answers? && !HasClerkId(old(db.users), clerkId) ==>
                  r == Threw(UserNotFound) && db.users == old(db.users)
                  && db.log == old(db.log) + [FindUserByClerkId(clerkId)])
            && (step.0.Returned? && findReply.Answers? && HasClerkId(old(db.users), clerkId) && deleteReply.Fails? ==>
                  r == Threw(Utils.HandleError(deleteReply.error)) && db.users == old(db.users)
                  && exists id :: id in old(db.users) && old(db.users)[id].clerkId == clerkId
                                  && db.log == old(db.log) + [FindUserByClerkId(clerkId), DeleteUserById(id)])
            && (step.0.Returned? && findReply.Answers? && HasClerkId(old(db.users), clerkId) && deleteReply.Answers? ==>
                  r.Returned? && r.value.Some? && r.value.value in old(db.users).Values
                  && r.value.value.clerkId == clerkId
                  && db.users == WithoutClerkId(old(db.users), clerkId)
                  && db.log == old(db.log) + [FindUserByClerkId(clerkId), DeleteUserById(r.value.value.id)])
  {
    var connected := db.cache.ConnectToDatabase(db.mongodbUrl, settlement);
    if connected.Threw? {
      return Threw(Utils.HandleError(connected.thrown));
    }
    var userToDelete := db.FindOne(clerkId, findReply);
    if userToDelete.Threw? {
      return Threw(Utils.HandleError(userToDelete.thrown));
    }
    if userToDelete.value.None? {
      return Threw(Utils.HandleError(ErrorObject("User not found")));
    }
    ghost var before := db.users;
    var deletedUser := db.FindByIdAndDelete(userToDelete.value.value.id, deleteReply);
    if deletedUser.Threw? {
      return Threw(Utils.HandleError(deletedUser.thrown));
    }
    assert db.users == WithoutClerkId(before, clerkId);
    r := Returned(deletedUser.value);
  }
}
