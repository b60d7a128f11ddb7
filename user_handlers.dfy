/**
 * The user handlers of pkg/handlers/user.go: the id check and the decision
 * chains of GetUsers, GetUser, UpdateUser and DeleteUser. Each store call is a
 * parameter, applied to exactly the arguments the handler passes it; the
 * request binding is an input holding the decoded user or the bind error.
 */
module UserHandlers {
  import opened Wrappers
  import opened Types
  import opened Strconv
  import opened Http

  const InvalidIdMessage := "invalid ID"
  const UserNotFoundMessage := "user not found"

  /** Go's `(uint64, error)` result of validateId. */
  datatype IdResult = IdResult(id: nat, err: Option<string>)

  /** A path id the handlers accept: one or more ASCII digits whose value fits in 32 bits. */
  predicate IsValidId(s: string)
  {
    IsDecimal(s) && DecValue(s) <= MaxUint32
  }

  /**
   * validateId: ParseUint(s, 10, 32), with every failure (empty string, bad
   * character, sign, underscore, overflow) turned into id 0 and "invalid ID".
   */
  function ValidateId(idStr: string): (r: IdResult)
    ensures r.err == None <==> IsValidId(idStr)
    ensures r.err == None ==> r.id == DecValue(idStr)
    ensures r.err != None ==> r.id == 0 && r.err == Some(InvalidIdMessage)
  {
    var parsed := ParseUint(idStr, 32);
    Pow2Values();
    ParseSpecAccepts(idStr, MaxUint32);
    if parsed.err != None then IdResult(0, Some(InvalidIdMessage)) else IdResult(parsed.value, None)
  }

  /** Every id up to 2^32 - 1, written in decimal, is accepted and read back; every larger one is refused. */
  lemma ValidateIdRoundTrip(n: nat)
    ensures n <= MaxUint32 ==> ValidateId(FormatUint(n)) == IdResult(n, None)
    ensures n > MaxUint32 ==> ValidateId(FormatUint(n)) == IdResult(0, Some(InvalidIdMessage))
  {
    FormatUintRoundTrip(n);
  }

  /** The inputs of the handler tests and the edges of the accepted range. */
  lemma ValidateIdExamples()
    ensures ValidateId("1") == IdResult(1, None)
    ensures ValidateId("99") == IdResult(99, None)
    ensures ValidateId("007") == IdResult(7, None)
    ensures ValidateId("4294967295") == IdResult(MaxUint32, None)
    ensures ValidateId("4294967296").err == Some(InvalidIdMessage)
    ensures ValidateId("invalid").err == Some(InvalidIdMessage)
    ensures ValidateId("").err == Some(InvalidIdMessage)
    ensures ValidateId("+1").err == Some(InvalidIdMessage)
    ensures ValidateId("1_0").err == Some(InvalidIdMessage)
  {
    assert DecValue("1") == 1;
    assert DecValue("99") == 99 by { assert "99"[..1] == "9"; }
    assert DecValue("007") == 7 by { assert "007"[..2] == "00"; assert "00"[..1] == "0"; }
    assert !IsDigit("+1"[0]);
    assert !IsDigit("1_0"[1]);
    assert !IsDigit("invalid"[0]);
    DecimalNearMax("4294967295");
    DecimalNearMax("4294967296");
  }

  /** Helper for ValidateIdExamples: the value of a ten-digit string starting "429496729". */
  lemma DecimalNearMax(s: string)
    requires |s| == 10 && AllDigits(s)
    requires s[0] == '4' && s[1] == '2' && s[2] == '9' && s[3] == '4' && s[4] == '9'
    requires s[5] == '6' && s[6] == '7' && s[7] == '2' && s[8] == '9'
    ensures DecValue(s) == 4294967290 + DigitValue(s[9])
  {
    assert s[..0] == [];
    DecValueExtend(s, 0);
    DecValueExtend(s, 1);
    DecValueExtend(s, 2);
    DecValueExtend(s, 3);
    DecValueExtend(s, 4);
    DecValueExtend(s, 5);
    DecValueExtend(s, 6);
    DecValueExtend(s, 7);
    DecValueExtend(s, 8);
    DecValueExtend(s, 9);
    assert s[..10] == s;
  }

  /**
   * GetUsersHandler: a store failure aborts with 500, no body and exactly one
   * recorded error (the store's); otherwise 200 with every user under "users",
   * an empty store giving an empty list.
   */
  function GetUsers(findAll: Outcome<seq<User>>): (r: Response)
    ensures r.status == StatusInternalServerError <==> findAll.Fail?
    ensures findAll.Fail? ==> r.body == None && r.errors == [findAll.msg] && r.aborted
    ensures r.status == StatusOK <==> findAll.Ok?
    ensures findAll.Ok? ==> r == Json(StatusOK, map["users" := UserList(findAll.value)])
    ensures r.cookies == []
  {
    match findAll
    case Fail(msg) => AbortWithError(StatusInternalServerError, msg)
    case Ok(users) => Json(StatusOK, map["users" := UserList(users)])
  }

  /**
   * GetUserHandler: an invalid path id is 400 "invalid ID" without a lookup;
   * a failed lookup of the parsed id is 404 "user not found" whatever the
   * store said; a found user is 200 with that user under "user".
   */
  function GetUser(idParam: string, findById: nat -> Outcome<User>): (r: Response)
    ensures !IsValidId(idParam) ==> IsError(r, StatusBadRequest, InvalidIdMessage)
    ensures IsValidId(idParam) && findById(DecValue(idParam)).Fail? ==>
      IsError(r, StatusNotFound, UserNotFoundMessage)
    ensures IsValidId(idParam) && findById(DecValue(idParam)).Ok? ==>
      r == Json(StatusOK, map["user" := UserValue(findById(DecValue(idParam)).value)])
  {
    var v := ValidateId(idParam);
    if v.err != None then AbortJson(StatusBadRequest, ErrorBody(v.err.value))
    else
      match findById(v.id)
      case Fail(_) => AbortJson(StatusNotFound, ErrorBody(UserNotFoundMessage))
      case Ok(user) => Json(StatusOK, map["user" := UserValue(user)])
  }

  /**
   * UpdateUserHandler: the id is checked first (400 "invalid ID"), then the
   * body is bound (400 with the bind error's text, no update), then the bound
   * user is written under the parsed id (404 with the store's text on
   * failure); success is 201 with the updated user under "user".
   */
  function UpdateUser(idParam: string, bind: Outcome<User>, update: (User, nat) -> Outcome<User>): (r: Response)
    ensures !IsValidId(idParam) ==> IsError(r, StatusBadRequest, InvalidIdMessage)
    ensures IsValidId(idParam) && bind.Fail? ==> IsError(r, StatusBadRequest, bind.msg)
    ensures IsValidId(idParam) && bind.Ok? && update(bind.value, DecValue(idParam)).Fail? ==>
      IsError(r, StatusNotFound, update(bind.value, DecValue(idParam)).msg)
    ensures r.status == StatusCreated <==>
      IsValidId(idParam) && bind.Ok? && update(bind.value, DecValue(idParam)).Ok?
    ensures r.status == StatusCreated ==>
      r == Json(StatusCreated, map["user" := UserValue(update(bind.value, DecValue(idParam)).value)])
  {
    var v := ValidateId(idParam);
    if v.err != None then AbortJson(StatusBadRequest, ErrorBody(v.err.value))
    else
      match bind
      case Fail(bindErr) => AbortJson(StatusBadRequest, ErrorBody(bindErr))
      case Ok(user) =>
        match update(user, v.id)
        case Fail(msg) => AbortJson(StatusNotFound, ErrorBody(msg))
        case Ok(updated) => Json(StatusCreated, map["user" := UserValue(updated)])
  }

  /**
   * DeleteUserHandler: 400 "invalid ID" for a bad id; 404 with the store's
   * text when the delete of the parsed id fails; otherwise 204 with no body.
   */
  function DeleteUser(idParam: string, delete: nat -> Outcome<()>): (r: Response)
    ensures !IsValidId(idParam) ==> IsError(r, StatusBadRequest, InvalidIdMessage)
    ensures IsValidId(idParam) && delete(DecValue(idParam)).Fail? ==>
      IsError(r, StatusNotFound, delete(DecValue(idParam)).msg)
    ensures r.status == StatusNoContent <==> IsValidId(idParam) && delete(DecValue(idParam)).Ok?
    ensures r.status == StatusNoContent ==> r == StatusOnly(StatusNoContent)
  {
    var v := ValidateId(idParam);
    if v.err != None then AbortJson(StatusBadRequest, ErrorBody(v.err.value))
    else
      match delete(v.id)
      case Fail(msg) => AbortJson(StatusNotFound, ErrorBody(msg))
      case Ok(_) => StatusOnly(StatusNoContent)
  }

  /**
   * The id check comes first: with an invalid id, the three id handlers give
   * the same 400 whatever the binding and the store would have done, so
   * neither is consulted.
   */
  lemma InvalidIdShortCircuits(idParam: string, bind1: Outcome<User>, bind2: Outcome<User>,
                               find1: nat -> Outcome<User>, find2: nat -> Outcome<User>,
                               update1: (User, nat) -> Outcome<User>, update2: (User, nat) -> Outcome<User>,
                               delete1: nat -> Outcome<()>, delete2: nat -> Outcome<()>)
    requires !IsValidId(idParam)
    ensures GetUser(idParam, find1) == GetUser(idParam, find2) == AbortJson(StatusBadRequest, ErrorBody(InvalidIdMessage))
    ensures UpdateUser(idParam, bind1, update1) == UpdateUser(idParam, bind2, update2)
    ensures DeleteUser(idParam, delete1) == DeleteUser(idParam, delete2)
  {
  }

  /** A bind failure is answered before the store: the update function is never consulted. */
  lemma BindFailureSkipsUpdate(idParam: string, msg: string,
                               update1: (User, nat) -> Outcome<User>, update2: (User, nat) -> Outcome<User>)
    ensures UpdateUser(idParam, Fail(msg), update1) == UpdateUser(idParam, Fail(msg), update2)
  {
  }

  /** GetUser hides the store's error text: any two lookup failures give the same response. */
  lemma LookupErrorTextHidden(idParam: string, m1: string, m2: string)
    ensures GetUser(idParam, _ => Fail(m1)) == GetUser(idParam, _ => Fail(m2))
  {
  }

  /**
   * The user GetUser returns is the stored row as it is, password field
   * included: nothing in the handler removes the hash from the response.
   */
  lemma GetUserReturnsStoredRow(idParam: string, stored: User)
    requires IsValidId(idParam)
    ensures GetUser(idParam, _ => Ok(stored)).body == Some(map["user" := UserValue(stored)])
    ensures GetUser(idParam, _ => Ok(stored)).body.value["user"].user.password == stored.password
  {
  }
}
