/**
 * The balance store: the `users` table as a map from id to balance, and the
 * operations on it. Every database step carries a flag saying whether the
 * step succeeds, so that each error path of the store can be taken.
 */
module UserStore {
  import opened Wrappers
  import opened UInt64
  import opened Calendar
  import opened Errors

  /** `user.User`, also the add-balance request: the balance field carries the amount to add. */
  datatype User = User(id: int, time: Option<Instant>, comment: string, balance: uint64)

  /** Whether each step of DecreaseBalanceChained before its ready signal succeeds. */
  datatype DebitSteps = DebitSteps(readOk: bool, beginOk: bool, writeOk: bool)

  /** The error GetUserBalance reports: a missing row, or whatever the driver failed with. */
  function BalanceReadError(ok: bool): Error {
    Wrapped("cannot get balance of user", Db(if ok then ErrNoRows else DriverFault))
  }

  class UserStorage {
    var users: map<int, uint64>

    constructor (users: map<int, uint64>)
      ensures this.users == users
    {
      this.users := users;
    }

    /**
     * `INSERT INTO users (id, balance)`: a balance with its high bit set is
     * refused by the argument converter; otherwise it fails when the step
     * fails or the id is taken.
     */
    method InsertUser(u: User, ok: bool) returns (err: Option<Error>)
      modifies this
      ensures err.None? <==> Storable(u.balance) && ok && u.id !in old(users)
      ensures !Storable(u.balance) ==> err == Some(Wrapped("cannot create a new user", Db(ArgumentFault)))
      ensures Storable(u.balance) && err.Some? ==> err == Some(Wrapped("cannot create a new user", Db(DriverFault)))
      ensures users == if err.None? then old(users)[u.id := u.balance] else old(users)
    {
      if !Storable(u.balance) {
        return Some(Wrapped("cannot create a new user", Db(ArgumentFault)));
      }
      if !ok || u.id in users {
        return Some(Wrapped("cannot create a new user", Db(DriverFault)));
      }
      users := users[u.id := u.balance];
      return None;
    }

    /**
     * `UPDATE users SET balance = u.balance WHERE id = u.id`: the balance is
     * overwritten with the absolute value given; an unknown id updates nothing
     * and is not an error. A balance with its high bit set is refused by the
     * argument converter.
     */
    method UpdateUserBalance(u: User, ok: bool) returns (err: Option<Error>)
      modifies this
      ensures err == if !Storable(u.balance) then Some(Wrapped("cannot update balance of user", Db(ArgumentFault)))
                     else if ok then None else Some(Wrapped("cannot update balance of user", Db(DriverFault)))
      ensures users == if Storable(u.balance) && ok && u.id in old(users) then old(users)[u.id := u.balance] else old(users)
    {
      if !Storable(u.balance) {
        return Some(Wrapped("cannot update balance of user", Db(ArgumentFault)));
      }
      if !ok {
        return Some(Wrapped("cannot update balance of user", Db(DriverFault)));
      }
      if u.id in users {
        users := users[u.id := u.balance];
      }
      return None;
    }

    /** A missing user is reported as absent without an error; other failures are errors. */
    method FindUser(id: int, ok: bool) returns (found: Option<User>, err: Option<Error>)
      ensures !ok ==> found == None && err == Some(Wrapped("cannot find a user", Db(DriverFault)))
      ensures ok ==> err == None
      ensures ok ==> (found.Some? <==> id in users)
      ensures found.Some? ==> found.value == User(id, None, "", users[id])
    {
      if !ok {
        return None, Some(Wrapped("cannot find a user", Db(DriverFault)));
      }
      if id !in users {
        return None, None;
      }
      return Some(User(id, None, "", users[id])), None;
    }

    /** The stored balance, or an error (and 0) for an unknown user or a failed read. */
    method GetUserBalance(id: int, ok: bool) returns (balance: uint64, err: Option<Error>)
      ensures err.None? <==> ok && id in users
      ensures err.None? ==> balance == users[id]
      ensures err.Some? ==> balance == 0 && err == Some(BalanceReadError(ok))
    {
      if !ok || id !in users {
        return 0, Some(BalanceReadError(ok));
      }
      return users[id], None;
    }

    /**
     * DecreaseBalanceChained up to its ready signal: read the balance, subtract
     * in uint64 arithmetic, open a transaction and write the new balance in it.
     * The write is refused by the argument converter when the new balance has
     * its high bit set, which is what an overdraft wraps to. Nothing is
     * committed yet, so the table is unchanged. `ready` is the value sent to
     * the ledger side; on failure the error is this side's result.
     */
    method DecreaseBalancePrepare(id: int, deductable: uint64, s: DebitSteps)
      returns (ready: bool, pending: uint64, err: Option<Error>)
      ensures ready <==> s.readOk && id in users && s.beginOk && Storable(Sub(users[id], deductable)) && s.writeOk
      ensures ready ==> err == None && pending == Sub(users[id], deductable)
      ensures !(s.readOk && id in users) ==> err == Some(BalanceReadError(s.readOk))
      ensures s.readOk && id in users && s.beginOk && !Storable(Sub(users[id], deductable)) ==> err == Some(Db(ArgumentFault))
      ensures s.readOk && id in users && !ready && !(s.beginOk && !Storable(Sub(users[id], deductable))) ==>
        err == Some(Db(DriverFault))
    {
      var balance;
      balance, err := GetUserBalance(id, s.readOk);
      if err.Some? {
        return false, 0, err;
      }
      balance := Sub(balance, deductable);
      if !s.beginOk {
        return false, 0, Some(Db(DriverFault));
      }
      if !Storable(balance) {
        // refused before it reaches the driver; the open transaction is abandoned
        return false, 0, Some(Db(ArgumentFault));
      }
      if !s.writeOk {
        // the open transaction is abandoned without a rollback; it never commits
        return false, 0, Some(Db(DriverFault));
      }
      return true, balance, None;
    }

    /**
     * DecreaseBalanceChained after the ledger's reply: commit the pending
     * write on true, roll it back on false. A commit error is discarded, and
     * the result reported is nil either way.
     */
    method DecreaseBalanceFinish(id: int, pending: uint64, reply: bool, commitOk: bool) returns (err: Option<Error>)
      modifies this
      ensures err == None
      ensures users == if reply && commitOk && id in old(users) then old(users)[id := pending] else old(users)
    {
      if reply && commitOk && id in users {
        users := users[id := pending];
      }
      return None;
    }
  }
}
