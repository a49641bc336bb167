/** The servers that the portal calls. Each may lose a call or its reply, so a method here answers as
    it pleases within its contract; every call is logged with its answer. */
module Remote {
  import opened Domain
  import opened Portal

  /** A call to Emby with its answer; a refused switch comes with the text of its error. */
  datatype Call =
    | Switched(userId: string, disabled: bool, ok: bool, message: string)
    | Created(username: string, answer: Option<string>)
    | Deleted(userId: string, ok: bool)
    | LookedUp(username: string, ok: bool, found: Option<string>)
    | PasswordSet(userId: string, ok: bool)
    | Restricted(userId: string, ok: bool)

  /** The Emby server. */
  class Emby {
    var users: map<string, EmbyUser>
    var usedIds: set<string>
    ghost var log: seq<Call>

    constructor ()
      ensures users == map[] && usedIds == {} && log == []
    {
      users, usedIds, log := map[], {}, [];
    }

    /** A refused call may have taken effect; an accepted one has. */
    method SetUserDisabled(id: string, disabled: bool) returns (ok: bool, message: string, ghost effect: bool)
      modifies `users, `log
      ensures log == old(log) + [Switched(id, disabled, ok, message)]
      ensures ok || effect ==> id in old(users)
      ensures ok ==> effect
      ensures users == if effect then old(users)[id := old(users)[id].(disabled := disabled)] else old(users)
    {
      var arrives: bool := *;
      var answers: bool := *;
      if arrives && id in users {
        users := users[id := users[id].(disabled := disabled)];
        ok, effect := answers, true;
      } else {
        ok, effect := false, false;
      }
      message := *;
      log := log + [Switched(id, disabled, ok, message)];
    }

    /** A user that was made is new and enabled; its id may be lost on the way back. */
    method CreateUser(username: string, createdBy: Option<nat>) returns (id: Option<string>, ghost made: Option<string>)
      modifies `users, `usedIds, `log
      ensures log == old(log) + [Created(username, id)]
      ensures id.Some? ==> made == id
      ensures made.Some? ==> made.value != "" && made.value !in old(usedIds)
      ensures made.None? ==> users == old(users) && usedIds == old(usedIds)
      ensures made.Some? ==> users == old(users)[made.value := EmbyUser(username, false, false, createdBy)]
      ensures made.Some? ==> usedIds == old(usedIds) + {made.value}
    {
      var given: string := *;
      var arrives: bool := *;
      var answers: bool := *;
      id, made := None, None;
      if arrives && given != "" && given !in usedIds {
        users := users[given := EmbyUser(username, false, false, createdBy)];
        usedIds := usedIds + {given};
        made := Some(given);
        if answers {
          id := Some(given);
        }
      }
      log := log + [Created(username, id)];
    }

    /** A user that is not there counts as deleted. */
    method DeleteUser(id: string) returns (ok: bool, ghost effect: bool)
      modifies `users, `log
      ensures users == if effect then old(users) - {id} else old(users)
      ensures ok ==> id !in users
      ensures log == old(log) + [Deleted(id, ok)]
    {
      var arrives: bool := *;
      var answers: bool := *;
      if arrives {
        users := users - {id};
      }
      ok, effect := arrives && answers, arrives;
      log := log + [Deleted(id, ok)];
    }

    /** The users whose trimmed name is the given one up to case, unless the call fails. */
    method FindUserByUsername(username: string) returns (ok: bool, found: Option<string>)
      modifies `log
      ensures log == old(log) + [LookedUp(username, ok, found)]
      ensures ok && found.Some? ==> found.value in users && SameName(TrimSpace(users[found.value].username), TrimSpace(username))
      ensures ok && found.None? ==> forall u :: u in users ==> !SameName(TrimSpace(users[u].username), TrimSpace(username))
    {
      ok := *;
      if u :| u in users && SameName(TrimSpace(users[u].username), TrimSpace(username)) {
        found := Some(u);
      } else {
        found := None;
      }
      log := log + [LookedUp(username, ok, found)];
    }

    method SetUserPassword(id: string) returns (ok: bool)
      modifies `log
      ensures log == old(log) + [PasswordSet(id, ok)]
    {
      ok := *;
      log := log + [PasswordSet(id, ok)];
    }

    method RestrictUserMediaFeatures(id: string) returns (ok: bool)
      modifies `log
      ensures log == old(log) + [Restricted(id, ok)]
    {
      ok := *;
      log := log + [Restricted(id, ok)];
    }
  }

  /** An order as the payment centre reports it; its times are parsed. */
  datatype ProviderOrder = ProviderOrder(
    merchantOrderNo: string, amountFen: int, currency: string, status: string, paymentUrl: string, paymentMemo: string,
    expiresAt: int, paidAt: int)

  /** What the centre is asked, and what it answers. */
  datatype Question =
    | Creation(merchantOrderNo: string, answer: Option<ProviderOrder>)
    | NewestOrders(orders: Option<seq<ProviderOrder>>)
    | Query(merchantOrderNo: string, answer: Option<ProviderOrder>)
    | Cancellation(merchantOrderNo: string, answer: Option<ProviderOrder>)

  /** The payment centre. No answer of it is trusted, and any call may fail. */
  class PaymentCenter {
    ghost var asked: seq<Question>

    constructor ()
      ensures asked == []
    {
      asked := [];
    }

    method CreateOrder(merchantOrderNo: string) returns (answer: Option<ProviderOrder>)
      modifies `asked
      ensures asked == old(asked) + [Creation(merchantOrderNo, answer)]
    {
      answer := *;
      asked := asked + [Creation(merchantOrderNo, answer)];
    }

    method ListOrders() returns (newest: Option<seq<ProviderOrder>>)
      modifies `asked
      ensures asked == old(asked) + [NewestOrders(newest)]
    {
      newest := *;
      asked := asked + [NewestOrders(newest)];
    }

    method QueryOrder(merchantOrderNo: string) returns (answer: Option<ProviderOrder>)
      modifies `asked
      ensures asked == old(asked) + [Query(merchantOrderNo, answer)]
    {
      answer := *;
      asked := asked + [Query(merchantOrderNo, answer)];
    }

    method CancelOrder(merchantOrderNo: string) returns (answer: Option<ProviderOrder>)
      modifies `asked
      ensures asked == old(asked) + [Cancellation(merchantOrderNo, answer)]
    {
      answer := *;
      asked := asked + [Cancellation(merchantOrderNo, answer)];
    }
  }
}
