/**
 * The document store the server actions work on: the users collection, the
 * transactions collection, and the shared connection record. Only the store
 * calls the actions make are modelled, each as its effect on the two collections.
 */
module Store {
  import opened Js
  import Mongoose

  /** A user document; `id` is its `_id`, `clerkId` the identity provider's id. */
  datatype User = User(id: string, clerkId: string, email: string, username: string,
                       firstName: string, lastName: string, photo: string, creditBalance: int)

  /** A transaction document: the `CreateTransactionParams` fields plus `buyer`.
      Amounts are major currency units, kept exact. */
  datatype TransactionRecord = TransactionRecord(stripeId: string, amount: real, credits: int, plan: string,
                                                 buyerId: string, createdAt: int, buyer: string)

  /** A store call, in the order the actions issue them. */
  datatype StoreOp =
    | FindUserByClerkId(clerkId: string)
    | DeleteUserById(id: string)
    | InsertTransaction(record: TransactionRecord)
    | IncrementCredits(userId: string, delta: int)

  /** How the store answers `Transaction.create`: with the new document, with
      nothing, or by rejecting. */
  datatype InsertReply = Stored | NothingStored | Rejected(error: Thrown)

  /** How the store answers a lookup or a delete: as its data says, or by rejecting. */
  datatype QueryReply = Answers | Fails(error: Thrown)

  /** The identity reference is unique per user. */
  ghost predicate ClerkIdsUnique(users: map<string, User>) {
    forall a, b :: a in users && b in users && users[a].clerkId == users[b].clerkId ==> a == b
  }

  /** Every user is stored under its own `_id`. */
  ghost predicate WellKeyed(users: map<string, User>) {
    forall id :: id in users ==> users[id].id == id
  }

  /** The users that remain once the one with `clerkId` is gone. */
  function WithoutClerkId(users: map<string, User>, clerkId: string): map<string, User> {
    map id | id in users && users[id].clerkId != clerkId :: users[id]
  }

  /** The user with a credit balance moved by `delta`. */
  function Credited(u: User, delta: int): User {
    u.(creditBalance := u.creditBalance + delta)
  }

  class Database {
    var users: map<string, User>
    var transactions: seq<TransactionRecord>
    /** The store calls made so far. */
    var log: seq<StoreOp>
    const cache: Mongoose.ConnectionCache
    /** `MONGODB_URL`. */
    const mongodbUrl: Option<string>
    /** What `updateCredits` (not part of this model) throws for an unknown user. */
    const updateCreditsError: Thrown

    ghost predicate Valid()
      reads this, cache
    {
      cache.Valid() && ClerkIdsUnique(users) && WellKeyed(users)
    }

    constructor (cache: Mongoose.ConnectionCache, mongodbUrl: Option<string>, users: map<string, User>,
                 updateCreditsError: Thrown)
      requires cache.Valid() && ClerkIdsUnique(users) && WellKeyed(users)
      ensures Valid()
      ensures this.cache == cache && this.mongodbUrl == mongodbUrl && this.updateCreditsError == updateCreditsError
      ensures this.users == users && transactions == [] && log == []
    {
      this.cache := cache;
      this.mongodbUrl := mongodbUrl;
      this.users := users;
      this.updateCreditsError := updateCreditsError;
      transactions := [];
      log := [];
    }

    /** `User.findOne({ clerkId })`: the user with that clerk id, null, or a rejection. */
    method FindOne(clerkId: string, reply: QueryReply) returns (found: Completion<Option<User>>)
      requires Valid()
      modifies this`log
      ensures log == old(log) + [FindUserByClerkId(clerkId)]
      ensures reply.Fails? ==> found == Threw(reply.error)
      ensures reply.Answers? ==>
        && found.Returned?
        && (found.value.Some? <==> exists id :: id in users && users[id].clerkId == clerkId)
        && (found.value.Some? ==> found.value.value.id in users && users[found.value.value.id] == found.value.value
                                  && found.value.value.clerkId == clerkId)
    {
      log := log + [FindUserByClerkId(clerkId)];
      if reply.Fails? {
        return Threw(reply.error);
      }
      if id :| id in users && users[id].clerkId == clerkId {
        found := Returned(Some(users[id]));
      } else {
        found := Returned(None);
      }
    }

    /** `User.findByIdAndDelete(id)`: the deleted document, null, or a rejection
        that leaves the users as they were. */
    method FindByIdAndDelete(id: string, reply: QueryReply) returns (deleted: Completion<Option<User>>)
      requires Valid()
      modifies this`users, this`log
      ensures Valid()
      ensures log == old(log) + [DeleteUserById(id)]
      ensures reply.Fails? ==> deleted == Threw(reply.error) && users == old(users)
      ensures reply.Answers? ==>
        users == old(users) - {id} && deleted == Returned(if id in old(users) then Some(old(users)[id]) else None)
    {
      log := log + [DeleteUserById(id)];
      if reply.Fails? {
        return Threw(reply.error);
      }
      deleted := Returned(if id in users then Some(users[id]) else None);
      users := users - {id};
    }

    /** `Transaction.create(record)`: the stored document, or null, or a rejection. */
    method Insert(record: TransactionRecord, reply: InsertReply) returns (r: Completion<Option<TransactionRecord>>)
      modifies this`transactions, this`log
      ensures log == old(log) + [InsertTransaction(record)]
      ensures transactions == old(transactions) + (if reply.Stored? then [record] else [])
      ensures r == match reply
                   case Stored => Returned(Some(record))
                   case NothingStored => Returned(None)
                   case Rejected(e) => Threw(e)
    {
      log := log + [InsertTransaction(record)];
      match reply {
        case Stored =>
          transactions := transactions + [record];
          r := Returned(Some(record));
        case NothingStored =>
          r := Returned(None);
        case Rejected(e) =>
          r := Threw(e);
      }
    }

    /** `updateCredits(userId, delta)`, taken as adding `delta` to the balance. */
    method UpdateCredits(userId: string, delta: int) returns (r: Completion<User>)
      requires Valid()
      modifies this`users, this`log
      ensures Valid()
      ensures log == old(log) + [IncrementCredits(userId, delta)]
      ensures userId in old(users) ==>
        users == old(users)[userId := Credited(old(users)[userId], delta)] && r == Returned(users[userId])
      ensures userId !in old(users) ==> users == old(users) && r == Threw(updateCreditsError)
    {
      log := log + [IncrementCredits(userId, delta)];
      if userId in users {
        users := users[userId := Credited(users[userId], delta)];
        r := Returned(users[userId]);
      } else {
        r := Threw(updateCreditsError);
      }
    }
  }
}
