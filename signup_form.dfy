/**
 * The test signup endpoint: a WhatsApp number is trimmed and validated, and
 * only a valid one leads to two inserts, the account first and then its
 * owner user.  The database replies are inputs: an Err is a request that
 * raised, an Ok carries the returned row, or None when no row came back.
 * Every failure after validation answers 500.
 */
module SignupForm {
  import opened Wrappers
  import opened Text
  import opened JsonValues

  const MinLength := 13
  const Owner := "owner"

  /** The number as validated: '+55', every character after the '+' a digit, at least 13 characters. */
  predicate ValidWhatsapp(w: string)
  {
    StartsWith(w, "+55") && AllDigits(w[1..]) && |w| >= MinLength
  }

  /** A plain Brazilian mobile number in the documented format is accepted, even with blanks around it. */
  lemma MobileAccepted(ddd: string, number: string, blanks: string)
    requires |ddd| == 2 && AllDigits(ddd) && |number| == 9 && AllDigits(number)
    requires forall i | 0 <= i < |blanks| :: IsSpace(blanks[i])
    ensures ValidWhatsapp(Strip(blanks + "+55" + ddd + number + blanks))
  {
    var w := "+55" + ddd + number;
    assert w[0] == '+' && w[|w| - 1] == number[8];
    assert blanks + "+55" + ddd + number + blanks == blanks + w + blanks;
    StripAround(blanks, w);
    NumberValid(ddd, number);
  }

  lemma NumberValid(ddd: string, number: string)
    requires |ddd| == 2 && AllDigits(ddd) && |number| == 9 && AllDigits(number)
    ensures ValidWhatsapp("+55" + ddd + number)
  {
    var w := "+55" + ddd + number;
    assert w[..3] == "+55";
    var t := w[1..];
    assert t == "55" + ddd + number;
    forall i | 0 <= i < |t| ensures IsDigit(t[i]) {
      if i < 2 {
      } else if i < 4 {
        assert t[i] == ddd[i - 2];
      } else {
        assert t[i] == number[i - 4];
      }
    }
  }

  /** Surrounding blanks are what strip() removes. */
  lemma StripAround(blanks: string, w: string)
    requires forall i | 0 <= i < |blanks| :: IsSpace(blanks[i])
    requires w != [] && !IsSpace(w[0]) && !IsSpace(w[|w| - 1])
    ensures Strip(blanks + w + blanks) == w
  {
    var s := blanks + w + blanks;
    LeftBlanks(blanks, w + blanks);
    assert s == blanks + (w + blanks);
    RightBlanks(w, blanks);
  }

  lemma {:induction false} LeftBlanks(blanks: string, rest: string)
    requires forall i | 0 <= i < |blanks| :: IsSpace(blanks[i])
    requires rest != [] && !IsSpace(rest[0])
    ensures TrimLeftBy(blanks + rest, IsSpace) == rest
  {
    if blanks != [] {
      assert (blanks + rest)[1..] == blanks[1..] + rest;
      LeftBlanks(blanks[1..], rest);
    } else {
      assert blanks + rest == rest;
    }
  }

  lemma {:induction false} RightBlanks(w: string, blanks: string)
    requires forall i | 0 <= i < |blanks| :: IsSpace(blanks[i])
    requires w != [] && !IsSpace(w[|w| - 1])
    ensures TrimRightBy(w + blanks, IsSpace) == w
  {
    if blanks != [] {
      var s := w + blanks;
      assert s[..|s| - 1] == w + blanks[..|blanks| - 1];
      RightBlanks(w, blanks[..|blanks| - 1]);
    } else {
      assert w + blanks == w;
    }
  }

  /** Too short, a missing country code, or a non-digit after the '+' is rejected. */
  lemma RejectedShapes(w: string)
    ensures |w| < MinLength ==> !ValidWhatsapp(w)
    ensures !StartsWith(w, "+55") ==> !ValidWhatsapp(w)
    ensures (exists i | 1 <= i < |w| :: !IsDigit(w[i])) ==> !ValidWhatsapp(w)
  {
    if exists i | 1 <= i < |w| :: !IsDigit(w[i]) {
      var i :| 1 <= i < |w| && !IsDigit(w[i]);
      assert w[1..][i - 1] == w[i];
    }
  }

  /** The users row created for the owner. */
  datatype UserRow = UserRow(accountId: Json, userName: string, whatsappNumber: string, role: string)

  /** One insert, in the order the endpoint issues them. */
  datatype Insert = AccountInsert | UserInsert(row: UserRow)

  datatype Response = Response(status: int, body: map<string, Json>)

  const Rejected := Response(400, map["error" := JStr("WhatsApp inválido"), "expected" := JStr("+55DDD9XXXXXXXX")])

  function Failure(details: string): Response
  {
    Response(500, map["error" := JStr("Erro no cadastro"), "details" := JStr(details)])
  }

  /** The id of a returned row: no row, or a row without 'id', is invalid. */
  function ReturnedId(reply: Option<map<string, Json>>): Option<Json>
  {
    if reply.Some? && reply.value != map[] && "id" in reply.value then Some(reply.value["id"]) else None
  }

  /** The owner insert and the response once the account came back with an id. */
  function UserStep(user: UserRow, userReply: Result<Option<map<string, Json>>>,
                    show: Option<map<string, Json>> -> string): (seq<Insert>, Response)
  {
    if userReply.Err? then ([], Failure(userReply.msg))
    else match ReturnedId(userReply.value)
      case None => ([UserInsert(user)], Failure("Falha ao criar usu\U{E1}rio: resposta inv\U{E1}lida " + show(userReply.value)))
      case Some(userId) => ([UserInsert(user)], Response(200, map["account_id" := user.accountId, "user_id" := userId]))
  }

  /** The two inserts and the response once the number is valid. */
  function Created(name: string, w: string, accountReply: Result<Option<map<string, Json>>>,
                   userReply: Result<Option<map<string, Json>>>, show: Option<map<string, Json>> -> string): (seq<Insert>, Response)
  {
    if accountReply.Err? then ([], Failure(accountReply.msg))
    else match ReturnedId(accountReply.value)
      case None => ([AccountInsert], Failure("Falha ao criar conta: resposta inv\U{E1}lida " + show(accountReply.value)))
      case Some(accountId) =>
        var u := UserStep(UserRow(accountId, name, w, Owner), userReply, show);
        ([AccountInsert] + u.0, u.1)
  }

  /**
   * signup_create: the inserts it issues and its response.  The details of
   * an invalid reply are the RuntimeError's message with the reply rendered
   * by show.
   */
  function Signup(name: string, whatsapp: string, accountReply: Result<Option<map<string, Json>>>,
                  userReply: Result<Option<map<string, Json>>>, show: Option<map<string, Json>> -> string): (seq<Insert>, Response)
  {
    var w := Strip(whatsapp);
    if !ValidWhatsapp(w) then ([], Rejected) else Created(name, w, accountReply, userReply, show)
  }

  /** After the account, at most the owner insert, and 200 exactly when it returned an id. */
  lemma UserStepFacts(user: UserRow, userReply: Result<Option<map<string, Json>>>, show: Option<map<string, Json>> -> string)
    ensures var u := UserStep(user, userReply, show);
      |u.0| <= 1 && (|u.0| == 1 ==> u.0[0] == UserInsert(user)) && u.1.status in {200, 500}
    ensures var u := UserStep(user, userReply, show);
      u.1.status == 200 <==> userReply.Ok? && ReturnedId(userReply.value).Some?
    ensures var u := UserStep(user, userReply, show);
      u.1.status == 200 ==> |u.0| == 1 && u.1.body["account_id"] == user.accountId
  {
  }

  /**
   * Past validation: the inserts are a prefix of [account, owner user], the
   * answer is 200 or 500, and 200 exactly when both inserts returned an id.
   */
  lemma CreatedFacts(name: string, w: string, accountReply: Result<Option<map<string, Json>>>,
                     userReply: Result<Option<map<string, Json>>>, show: Option<map<string, Json>> -> string)
    ensures var out := Created(name, w, accountReply, userReply, show);
      out.1.status in {200, 500} && |out.0| <= 2 && (|out.0| >= 1 ==> out.0[0] == AccountInsert)
    ensures var out := Created(name, w, accountReply, userReply, show);
      |out.0| == 2 ==> out.0[1] == UserInsert(UserRow(ReturnedId(accountReply.value).value, name, w, Owner))
    ensures var out := Created(name, w, accountReply, userReply, show);
      out.1.status == 200 <==> accountReply.Ok? && ReturnedId(accountReply.value).Some? && userReply.Ok? && ReturnedId(userReply.value).Some?
    ensures var out := Created(name, w, accountReply, userReply, show);
      out.1.status == 200 ==> |out.0| == 2 && out.1.body["account_id"] == out.0[1].row.accountId
  {
    if accountReply.Ok? && ReturnedId(accountReply.value).Some? {
      UserStepFacts(UserRow(ReturnedId(accountReply.value).value, name, w, Owner), userReply, show);
    }
  }

  /** An invalid number is answered 400 before anything is inserted; nothing else is answered 400. */
  lemma RejectionInsertsNothing(name: string, whatsapp: string, accountReply: Result<Option<map<string, Json>>>,
                                userReply: Result<Option<map<string, Json>>>, show: Option<map<string, Json>> -> string)
    ensures var out := Signup(name, whatsapp, accountReply, userReply, show);
      out.1.status == 400 <==> !ValidWhatsapp(Strip(whatsapp))
    ensures var out := Signup(name, whatsapp, accountReply, userReply, show);
      out.1.status == 400 ==> out.0 == []
  {
    CreatedFacts(name, Strip(whatsapp), accountReply, userReply, show);
  }

  /**
   * The inserts are always a prefix of [account, owner user]: the user is
   * never inserted without the account before it, and it is the owner of
   * the returned account with the trimmed number.
   */
  lemma AccountBeforeUser(name: string, whatsapp: string, accountReply: Result<Option<map<string, Json>>>,
                          userReply: Result<Option<map<string, Json>>>, show: Option<map<string, Json>> -> string)
    ensures var ops := Signup(name, whatsapp, accountReply, userReply, show).0;
      |ops| <= 2 && (|ops| >= 1 ==> ops[0] == AccountInsert)
    ensures var ops := Signup(name, whatsapp, accountReply, userReply, show).0;
      |ops| == 2 ==> ops[1] == UserInsert(UserRow(ReturnedId(accountReply.value).value, name, Strip(whatsapp), Owner))
  {
    CreatedFacts(name, Strip(whatsapp), accountReply, userReply, show);
  }

  /** 200 exactly when the number is valid and both inserts returned an id; every other outcome is 400 or 500. */
  lemma SuccessIff(name: string, whatsapp: string, accountReply: Result<Option<map<string, Json>>>,
                   userReply: Result<Option<map<string, Json>>>, show: Option<map<string, Json>> -> string)
    ensures var out := Signup(name, whatsapp, accountReply, userReply, show);
      out.1.status in {200, 400, 500}
    ensures var out := Signup(name, whatsapp, accountReply, userReply, show);
      out.1.status == 200 <==>
        ValidWhatsapp(Strip(whatsapp)) && accountReply.Ok? && ReturnedId(accountReply.value).Some? &&
        userReply.Ok? && ReturnedId(userReply.value).Some?
    ensures var out := Signup(name, whatsapp, accountReply, userReply, show);
      out.1.status == 200 ==> |out.0| == 2 && out.1.body["account_id"] == out.0[1].row.accountId
  {
    CreatedFacts(name, Strip(whatsapp), accountReply, userReply, show);
  }

  /** The tables the endpoint writes, as the log of its inserts. */
  class Database {
    var inserts: seq<Insert>

    constructor ()
      ensures inserts == []
    {
      inserts := [];
    }

    method InsertAccount()
      modifies this
      ensures inserts == old(inserts) + [AccountInsert]
    {
      inserts := inserts + [AccountInsert];
    }

    method InsertUser(row: UserRow)
      modifies this
      ensures inserts == old(inserts) + [UserInsert(row)]
    {
      inserts := inserts + [UserInsert(row)];
    }

    /** signup_create: the validation, then the two inserts in order, each checked before going on. */
    method SignupCreate(name: string, whatsapp: string, accountReply: Result<Option<map<string, Json>>>,
                        userReply: Result<Option<map<string, Json>>>, show: Option<map<string, Json>> -> string)
      returns (resp: Response)
      modifies this
      ensures var out := Signup(name, whatsapp, accountReply, userReply, show);
        inserts == old(inserts) + out.0 && resp == out.1
    {
      var w := Strip(whatsapp);
      if !ValidWhatsapp(w) {
        return Rejected;
      }
      resp := CreateAccount(name, w, accountReply, userReply, show);
    }

    /** The account insert, then the owner's. */
    method CreateAccount(name: string, w: string, accountReply: Result<Option<map<string, Json>>>,
                         userReply: Result<Option<map<string, Json>>>, show: Option<map<string, Json>> -> string)
      returns (resp: Response)
      modifies this
      ensures var out := Created(name, w, accountReply, userReply, show);
        inserts == old(inserts) + out.0 && resp == out.1
    {
      if accountReply.Err? {
        return Failure(accountReply.msg);
      }
      InsertAccount();
      var accountId := ReturnedId(accountReply.value);
      if accountId.None? {
        return Failure("Falha ao criar conta: resposta inv\U{E1}lida " + show(accountReply.value));
      }
      resp := CreateUser(UserRow(accountId.value, name, w, Owner), userReply, show);
    }

    /** The owner insert, issued only after the account reply was checked. */
    method CreateUser(user: UserRow, userReply: Result<Option<map<string, Json>>>, show: Option<map<string, Json>> -> string)
      returns (resp: Response)
      modifies this
      ensures inserts == old(inserts) + UserStep(user, userReply, show).0 && resp == UserStep(user, userReply, show).1
    {
      if userReply.Err? {
        return Failure(userReply.msg);
      }
      InsertUser(user);
      var userId := ReturnedId(userReply.value);
      if userId.None? {
        return Failure("Falha ao criar usu\U{E1}rio: resposta inv\U{E1}lida " + show(userReply.value));
      }
      resp := Response(200, map["account_id" := user.accountId, "user_id" := userId.value]);
    }
  }
}
