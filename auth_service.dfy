/**
 * The session token store (`app/services/AuthService.ts`): a token and its
 * expiry instant kept under two keys of the device's key-value storage, with
 * lazy expiry on read.
 *
 * The storage is a `map<string, string>` field; the clock is an instant `now`
 * in milliseconds passed to each operation; the expiry instant is written as
 * decimal text (`Numerals`) where the source writes ISO-8601 text. Storage
 * failures are a `Fault` parameter naming which storage call of the operation
 * throws.
 */
module Auth {
  import opened Wrappers
  import Numerals

  const TOKEN_KEY := "@auth_token"
  const TOKEN_EXPIRY_KEY := "@auth_token_expiry"
  /** Validity window of a stored token: 24 hours, in milliseconds. */
  const TOKEN_LIFETIME := 24 * 60 * 60 * 1000

  type Storage = map<string, string>

  /**
   * Which storage call of one operation throws, counting from 0 in the order
   * the operation issues them; `NoFault` when none does.
   */
  datatype Fault = NoFault | FailAt(step: nat)

  /** The fault as seen by a nested operation that starts after `done` storage calls. */
  function Resume(fault: Fault, done: nat): Fault {
    match fault
    case FailAt(k) => if k >= done then FailAt(k - done) else NoFault
    case NoFault => NoFault
  }

  /** `getItem`: `null` for a missing key. */
  function GetItem(storage: Storage, key: string): Option<string> {
    if key in storage then Some(storage[key]) else None
  }

  /** The text written for an expiry instant. */
  function ExpiryText(instant: int): string {
    Numerals.FormatInt(instant)
  }

  /**
   * `new Date(expiry) < new Date()`: strictly before now. Text that does not
   * read as an instant is an invalid date, and comparing one is false.
   */
  predicate HasExpired(expiry: string, now: int) {
    match Numerals.ParseInt(expiry)
    case Some(instant) => instant < now
    case None => false
  }

  // ---- Specification of each operation's effect on the storage ----

  /** Storage after `setToken`: the token write (call 0), then the expiry write (call 1). */
  function SetTokenState(storage: Storage, token: string, now: int, fault: Fault): Storage {
    if fault == FailAt(0) then storage
    else if fault == FailAt(1) then storage[TOKEN_KEY := token]
    else storage[TOKEN_KEY := token][TOKEN_EXPIRY_KEY := ExpiryText(now + TOKEN_LIFETIME)]
  }

  /** Storage after `removeToken`: removal of the token (call 0), then of the expiry (call 1). */
  function RemoveTokenState(storage: Storage, fault: Fault): Storage {
    if fault == FailAt(0) then storage
    else if fault == FailAt(1) then storage - {TOKEN_KEY}
    else storage - {TOKEN_KEY, TOKEN_EXPIRY_KEY}
  }

  /** What `getToken` returns and the storage it leaves. */
  datatype TokenRead = TokenRead(token: Option<string>, storage: Storage)

  /**
   * `getToken`: reads the token (call 0) and the expiry (call 1); on an
   * expired token runs `removeToken` (calls 2 and 3), which swallows its own
   * failures. Any failure of the two reads yields `null`.
   */
  function GetTokenOutcome(storage: Storage, now: int, fault: Fault): TokenRead {
    if fault == FailAt(0) || fault == FailAt(1) then TokenRead(None, storage)
    else
      var token := GetItem(storage, TOKEN_KEY);
      var expiry := GetItem(storage, TOKEN_EXPIRY_KEY);
      if !Truthy(token) || !Truthy(expiry) then TokenRead(None, storage)
      else if HasExpired(expiry.value, now) then TokenRead(None, RemoveTokenState(storage, Resume(fault, 2)))
      else TokenRead(token, storage)
  }

  class AuthService {
    /** The device's key-value storage; other keys may be present and are never touched. */
    var storage: Storage

    constructor(initial: Storage)
      ensures storage == initial
    {
      storage := initial;
    }

    method SetToken(token: string, now: int, fault: Fault)
      modifies this
      ensures storage == SetTokenState(old(storage), token, now, fault)
    {
      var expiry := ExpiryText(now + TOKEN_LIFETIME);
      if fault == FailAt(0) {
        return;
      }
      storage := storage[TOKEN_KEY := token];
      if fault == FailAt(1) {
        return;
      }
      storage := storage[TOKEN_EXPIRY_KEY := expiry];
    }

    method GetToken(now: int, fault: Fault) returns (token: Option<string>)
      modifies this
      ensures TokenRead(token, storage) == GetTokenOutcome(old(storage), now, fault)
    {
      if fault == FailAt(0) {
        return None;
      }
      token := GetItem(storage, TOKEN_KEY);
      if fault == FailAt(1) {
        return None;
      }
      var expiry := GetItem(storage, TOKEN_EXPIRY_KEY);
      if !Truthy(token) || !Truthy(expiry) {
        return None;
      }
      if HasExpired(expiry.value, now) {
        RemoveToken(Resume(fault, 2));
        return None;
      }
    }

    method RemoveToken(fault: Fault)
      modifies this
      ensures storage == RemoveTokenState(old(storage), fault)
    {
      if fault == FailAt(0) {
        return;
      }
      storage := storage - {TOKEN_KEY};
      if fault == FailAt(1) {
        return;
      }
      storage := storage - {TOKEN_EXPIRY_KEY};
    }

    method IsAuthenticated(now: int, fault: Fault) returns (authenticated: bool)
      modifies this
      ensures authenticated == GetTokenOutcome(old(storage), now, fault).token.Some?
      ensures storage == GetTokenOutcome(old(storage), now, fault).storage
    {
      var token := GetToken(now, fault);
      authenticated := token != None;
    }
  }

  // ---- Properties of the session store ----

  /** `setToken` writes the token and an expiry 24 hours after `now`, and no other key. */
  lemma SetTokenWrites(storage: Storage, token: string, now: int)
    ensures var after := SetTokenState(storage, token, now, NoFault);
      && GetItem(after, TOKEN_KEY) == Some(token)
      && GetItem(after, TOKEN_EXPIRY_KEY) == Some(ExpiryText(now + TOKEN_LIFETIME))
      && forall key :: key != TOKEN_KEY && key != TOKEN_EXPIRY_KEY ==> GetItem(after, key) == GetItem(storage, key)
  {
  }

  /** An expiry written for instant `t` has expired at `now` exactly when `t < now`. */
  lemma HasExpiredIsStrict(instant: int, now: int)
    ensures HasExpired(ExpiryText(instant), now) <==> instant < now
  {
    Numerals.ParseFormatInt(instant);
  }

  /**
   * After `setToken(t)` with a non-empty `t`, up to and including the expiry
   * instant, `getToken` returns `t` and leaves the storage as it is.
   */
  lemma TokenValidUntilExpiry(storage: Storage, token: string, setAt: int, now: int)
    requires token != ""
    requires now <= setAt + TOKEN_LIFETIME
    ensures var stored := SetTokenState(storage, token, setAt, NoFault);
      GetTokenOutcome(stored, now, NoFault) == TokenRead(Some(token), stored)
  {
    HasExpiredIsStrict(setAt + TOKEN_LIFETIME, now);
  }

  /** After the expiry instant, `getToken` returns `null` and removes both keys. */
  lemma TokenRemovedAfterExpiry(storage: Storage, token: string, setAt: int, now: int)
    requires token != ""
    requires setAt + TOKEN_LIFETIME < now
    ensures var stored := SetTokenState(storage, token, setAt, NoFault);
      var read := GetTokenOutcome(stored, now, NoFault);
      && read.token == None
      && read.storage == storage - {TOKEN_KEY, TOKEN_EXPIRY_KEY}
      && TOKEN_KEY !in read.storage && TOKEN_EXPIRY_KEY !in read.storage
  {
    HasExpiredIsStrict(setAt + TOKEN_LIFETIME, now);
    var stored := SetTokenState(storage, token, setAt, NoFault);
    assert stored - {TOKEN_KEY, TOKEN_EXPIRY_KEY} == storage - {TOKEN_KEY, TOKEN_EXPIRY_KEY};
  }

  /** A missing or empty token or expiry reads as `null`, and the storage is left as it is. */
  lemma MissingOrEmptyReadsAbsent(storage: Storage, now: int, fault: Fault)
    requires !Truthy(GetItem(storage, TOKEN_KEY)) || !Truthy(GetItem(storage, TOKEN_EXPIRY_KEY))
    ensures GetTokenOutcome(storage, now, fault) == TokenRead(None, storage)
  {
  }

  /**
   * `getToken` changes the storage only in the expired branch, and then only
   * by running `removeToken`; a token it returns is the stored one.
   */
  lemma GetTokenChangesOnlyWhenExpired(storage: Storage, now: int, fault: Fault)
    ensures var read := GetTokenOutcome(storage, now, fault);
      && (read.storage != storage ==>
            && Truthy(GetItem(storage, TOKEN_KEY)) && Truthy(GetItem(storage, TOKEN_EXPIRY_KEY))
            && HasExpired(storage[TOKEN_EXPIRY_KEY], now)
            && read.token == None
            && read.storage == RemoveTokenState(storage, Resume(fault, 2)))
      && (read.token.Some? ==>
            && read.storage == storage
            && read.token == GetItem(storage, TOKEN_KEY)
            && !HasExpired(storage[TOKEN_EXPIRY_KEY], now))
  {
  }

  /** A storage failure never makes `getToken` return a token it would not return without one. */
  lemma FaultsNeverFabricateToken(storage: Storage, now: int, fault: Fault)
    ensures var read := GetTokenOutcome(storage, now, fault);
      read.token.Some? ==> read == GetTokenOutcome(storage, now, NoFault)
  {
  }

  /** `removeToken` deletes both keys and nothing else. */
  lemma RemoveTokenDeletesBoth(storage: Storage)
    ensures var after := RemoveTokenState(storage, NoFault);
      && TOKEN_KEY !in after && TOKEN_EXPIRY_KEY !in after
      && forall key :: key != TOKEN_KEY && key != TOKEN_EXPIRY_KEY ==> GetItem(after, key) == GetItem(storage, key)
  {
  }

  /** `removeToken` is idempotent. */
  lemma RemoveTokenIdempotent(storage: Storage)
    ensures RemoveTokenState(RemoveTokenState(storage, NoFault), NoFault) == RemoveTokenState(storage, NoFault)
  {
  }

  /**
   * Whatever the prior state and whatever fails during the read, `getToken`
   * after `removeToken` returns `null`, unless the removal's first call is the
   * one that failed.
   */
  lemma GetTokenAfterRemove(storage: Storage, removeFault: Fault, now: int, fault: Fault)
    requires removeFault != FailAt(0)
    ensures GetTokenOutcome(RemoveTokenState(storage, removeFault), now, fault).token == None
  {
  }

  /**
   * When the expiry write of `setToken` fails, the new token stays written
   * next to whatever expiry was stored before; with none stored, `getToken`
   * then reads `null` and changes nothing.
   */
  lemma ExpiryWriteFailure(storage: Storage, token: string, setAt: int, now: int, fault: Fault)
    ensures var after := SetTokenState(storage, token, setAt, FailAt(1));
      && GetItem(after, TOKEN_KEY) == Some(token)
      && GetItem(after, TOKEN_EXPIRY_KEY) == GetItem(storage, TOKEN_EXPIRY_KEY)
      && (!Truthy(GetItem(storage, TOKEN_EXPIRY_KEY)) ==> GetTokenOutcome(after, now, fault) == TokenRead(None, after))
  {
  }

  /**
   * An expiry text that does not read as an instant never expires: with a
   * non-empty token beside it, `getToken` returns the token at every instant.
   */
  lemma UnreadableExpiryNeverExpires(storage: Storage, now: int)
    requires Truthy(GetItem(storage, TOKEN_KEY)) && Truthy(GetItem(storage, TOKEN_EXPIRY_KEY))
    requires Numerals.ParseInt(storage[TOKEN_EXPIRY_KEY]) == None
    ensures GetTokenOutcome(storage, now, NoFault) == TokenRead(GetItem(storage, TOKEN_KEY), storage)
  {
  }
}
