/** The duel HTTP routes: the token-checking middleware and the `POST /create`
    handler. Token verification, the user collection and the duel collection
    are abstract: a verification oracle, a lookup oracle and a map with an
    availability flag. */
module DuelRoutes {
  import opened Wrappers
  import opened DuelModel

  /** The decoded token payload; a token can decode to a payload without `id`. */
  datatype Claims = Claims(id: Option<ObjectId>)

  /** The JSON request body of `POST /create`; either field may be absent. */
  datatype CreateBody = CreateBody(opponentEmail: Option<string>, difficulty: Option<string>)

  datatype Body = Message(message: string) | Created(duelId: ObjectId)

  datatype Response = Response(status: int, body: Body)

  const Unauthorized := Response(401, Message("Unauthorized"))
  const InvalidToken := Response(401, Message("Invalid token"))
  const UserNotFound := Response(404, Message("User not found"))
  const ServerError := Response(500, Message("Server error"))

  /** The middleware either passes control on with the decoded payload or answers itself. */
  datatype AuthResult = Next(user: Claims) | Reject(response: Response)

  /** What looking a user up by id can give: the user's id, nothing, or a thrown error. */
  datatype UserLookup = Found(userId: ObjectId) | NotFound | LookupFailed

  /** The duel collection; `available` is false when the store cannot be written. */
  datatype Db = Db(duels: map<ObjectId, Duel>, available: bool)

  /** The authorization header counts as missing when it is absent or empty. */
  predicate MissingHeader(header: Option<string>)
  {
    header.None? || header.value == ""
  }

  /** The decision of the token-checking middleware; `verify` stands for
      verifying the token against the server secret (None: it throws). */
  function Authenticate(header: Option<string>, verify: string -> Option<Claims>): (r: AuthResult)
    ensures MissingHeader(header) ==> r == Reject(Unauthorized)
    ensures !MissingHeader(header) && verify(header.value).None? ==> r == Reject(InvalidToken)
    ensures r.Next? <==> !MissingHeader(header) && verify(header.value).Some?
    ensures r.Next? ==> verify(header.value) == Some(r.user)
  {
    if MissingHeader(header) then Reject(Unauthorized)
    else match verify(header.value)
      case None => Reject(InvalidToken)
      case Some(claims) => Next(claims)
  }

  /** The text a template literal gives for a possibly absent body field. */
  function TemplateText(v: Option<string>): string
  {
    if v.Some? then v.value else "undefined"
  }

  /** The placeholder question list for a difficulty. */
  function Questions(difficulty: Option<string>): seq<string>
  {
    var d := TemplateText(difficulty);
    ["question_" + d + "_1", "question_" + d + "_2"]
  }

  /** Two distinct questions, both named after the requested difficulty. */
  lemma QuestionsNamedAfterDifficulty(d: Difficulty)
    ensures var q := Questions(Some(DifficultyName(d)));
      |q| == 2 && q[0] != q[1] &&
      forall i :: 0 <= i < 2 ==> q[i][..|"question_" + DifficultyName(d) + "_"|] == "question_" + DifficultyName(d) + "_"
  {
    var p := "question_" + DifficultyName(d) + "_";
    var q := Questions(Some(DifficultyName(d)));
    assert q[0] == p + "1" && q[1] == p + "2";
    assert q[0][|p|] != q[1][|p|];
    assert q[0][..|p|] == p && q[1][..|p|] == p;
  }

  lemma HardQuestions()
    ensures Questions(Some("hard")) == ["question_hard_1", "question_hard_2"]
  {
    assert "question_" + "hard" + "_1" == "question_hard_1";
    assert "question_" + "hard" + "_2" == "question_hard_2";
  }

  /** Storing a validated record under a fresh id; a write to an unavailable
      store or to a used id fails. */
  function Insert(db: Db, id: ObjectId, doc: Duel): (r: Option<Db>)
    ensures r.Some? <==> db.available && id !in db.duels
    ensures r.Some? ==>
      && r.value.available == db.available
      && r.value.duels.Keys == db.duels.Keys + {id}
      && r.value.duels[id] == doc
      && (forall k :: k in db.duels ==> r.value.duels[k] == db.duels[k])
  {
    if db.available && id !in db.duels then Some(Db(db.duels[id := doc], db.available)) else None
  }

  /** The `POST /create` handler once the middleware has accepted the token.
      `newId` is the identifier the store assigns and `now` the clock reading. */
  function CreateHandler(user: Claims, body: CreateBody, findUser: Option<ObjectId> -> UserLookup,
                         db: Db, newId: ObjectId, now: int): (out: (Response, Db))
    ensures out.0 == UserNotFound || out.0 == ServerError || out.0 == Response(200, Created(newId))
    ensures out.0 == UserNotFound <==> findUser(user.id) == NotFound
    ensures out.0.status == 200 <==>
      && findUser(user.id).Found?
      && body.opponentEmail.Some? && IsValidEmail(body.opponentEmail.value)
      && body.difficulty.Some? && ParseDifficulty(body.difficulty.value).Some?
      && db.available && newId !in db.duels
    ensures out.0.status != 200 ==> out.1 == db
    ensures out.0.status == 200 ==>
      && out.1.available == db.available
      && out.1.duels.Keys == db.duels.Keys + {newId}
      && (forall k :: k in db.duels ==> out.1.duels[k] == db.duels[k])
      && out.1.duels[newId].challenger == findUser(user.id).userId
      && out.1.duels[newId].opponentEmail == body.opponentEmail.value
      && DifficultyName(out.1.duels[newId].difficulty) == body.difficulty.value
      && out.1.duels[newId].questions == Questions(body.difficulty)
      && out.1.duels[newId].status == Pending
      && out.1.duels[newId].winner == None
  {
    match findUser(user.id)
    case LookupFailed => (ServerError, db)
    case NotFound => (UserNotFound, db)
    case Found(challenger) =>
      var input := DuelInput(challenger, body.opponentEmail, body.difficulty, Questions(body.difficulty));
      match NewDuel(input, now)
      case Err(_) => (ServerError, db)
      case Ok(doc) =>
        match Insert(db, newId, doc)
        case None => (ServerError, db)
        case Some(db') => (Response(200, Created(newId)), db')
  }

  /** The whole route: the middleware, then the handler. */
  function HandleCreate(header: Option<string>, body: CreateBody, verify: string -> Option<Claims>,
                        findUser: Option<ObjectId> -> UserLookup, db: Db, newId: ObjectId, now: int): (Response, Db)
  {
    match Authenticate(header, verify)
    case Reject(response) => (response, db)
    case Next(user) => CreateHandler(user, body, findUser, db, newId, now)
  }

  /** A rejected token means 401, an unchanged store, and no user lookup: the
      answer is the same whatever the user collection holds. */
  lemma RejectedRequestReadsNothing(header: Option<string>, body: CreateBody, verify: string -> Option<Claims>,
                                    f1: Option<ObjectId> -> UserLookup, f2: Option<ObjectId> -> UserLookup,
                                    db: Db, newId: ObjectId, now: int)
    requires Authenticate(header, verify).Reject?
    ensures HandleCreate(header, body, verify, f1, db, newId, now) == HandleCreate(header, body, verify, f2, db, newId, now)
    ensures HandleCreate(header, body, verify, f1, db, newId, now).1 == db
    ensures HandleCreate(header, body, verify, f1, db, newId, now).0.status == 401
  {
  }

  /** Once the JSON body has parsed, the route answers only 200, 401, 404 or
      500; in particular a malformed email or difficulty is a 500, never a 400. */
  lemma OnlyFourStatuses(header: Option<string>, body: CreateBody, verify: string -> Option<Claims>,
                         findUser: Option<ObjectId> -> UserLookup, db: Db, newId: ObjectId, now: int)
    ensures var status := HandleCreate(header, body, verify, findUser, db, newId, now).0.status;
      status == 200 || status == 401 || status == 404 || status == 500
  {
  }

  /** A found challenger with a malformed email yields "Server error" and stores nothing. */
  lemma InvalidEmailIsServerError(header: Option<string>, body: CreateBody, verify: string -> Option<Claims>,
                                  findUser: Option<ObjectId> -> UserLookup, db: Db, newId: ObjectId, now: int)
    requires Authenticate(header, verify).Next?
    requires findUser(Authenticate(header, verify).user.id).Found?
    requires body.opponentEmail.None? || !IsValidEmail(body.opponentEmail.value)
    ensures HandleCreate(header, body, verify, findUser, db, newId, now) == (ServerError, db)
  {
  }

  /** A request as the middleware sees it; the middleware sets `user`. */
  class Request {
    const authorization: Option<string>
    const body: CreateBody
    var user: Option<Claims>

    constructor (authorization: Option<string>, body: CreateBody)
      ensures this.authorization == authorization && this.body == body && user == None
    {
      this.authorization := authorization;
      this.body := body;
      user := None;
    }
  }

  /** The middleware: stores the decoded payload on the request and passes on,
      or answers 401 and leaves the request alone. */
  method AuthMiddleware(req: Request, verify: string -> Option<Claims>) returns (r: AuthResult)
    modifies req
    ensures r == Authenticate(req.authorization, verify)
    ensures r.Next? ==> req.user == Some(r.user)
    ensures r.Reject? ==> req.user == old(req.user)
  {
    var token := req.authorization;
    if token.None? || token.value == "" {
      return Reject(Unauthorized);
    }
    var decoded := verify(token.value);
    if decoded.None? {
      return Reject(InvalidToken);
    }
    req.user := decoded;
    r := Next(decoded.value);
  }

  /** `POST /create` end to end: the middleware runs, and the handler only when it passes on. */
  method PostCreate(req: Request, verify: string -> Option<Claims>, findUser: Option<ObjectId> -> UserLookup,
                    db: Db, newId: ObjectId, now: int) returns (response: Response, db': Db)
    modifies req
    ensures (response, db') == HandleCreate(req.authorization, req.body, verify, findUser, db, newId, now)
  {
    var auth := AuthMiddleware(req, verify);
    match auth
    case Reject(resp) =>
      response, db' := resp, db;
    case Next(_) =>
      var out := CreateHandler(req.user.value, req.body, findUser, db, newId, now);
      response, db' := out.0, out.1;
  }
}
