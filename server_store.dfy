// The Express + Prisma back end (server/index.js). Prisma is an abstract keyed store held by one
// object; JWT signing and verification, the S3 upload and the id generator are parameters.
module ServerStore {
  import opened Wrappers
  import opened Http
  import opened Types
  import opened Text
  import Seqs

  /** The JWT payload `generateToken` signs: id, email and line of business. */
  datatype Claims = Claims(id: string, email: string, lineofbusiness: string)

  datatype UserRow = UserRow(
    id: string, email: string, name: string, role: string,
    department: string, lineofbusiness: string, createdat: nat, updatedat: nat)

  datatype IdeaRow = IdeaRow(
    id: string, title: string, description: string, expectedimpact: string,
    status: string, lineofbusiness: string, submittedby: string)

  datatype CoApplicantRow = CoApplicantRow(ideaid: string, coapplicantname: string)
  datatype AttachmentRow = AttachmentRow(filename: string, fileurl: string, ideaid: string)

  /** A review row; stage and status are the request body's, unchecked. */
  datatype ReviewRow = ReviewRow(
    ideaid: string, reviewerid: string, stage: string, status: string, comments: string, createdat: nat)

  /** A file multer hands over (its bytes go to S3 and are not modelled). */
  datatype UploadedFile = UploadedFile(originalname: string, mimetype: string)

  /** One element of the parsed `coApplicants` array. */
  datatype CoApplicantEntry = CoApplicantEntry(email: string)

  /** The `coApplicants` form field: absent (or empty), not JSON, JSON but no array, or an array. */
  datatype CoApplicantsField = Absent | Unparsable | NotAnArray | ArrayOf(entries: seq<CoApplicantEntry>)

  datatype LoginBody = LoginBody(token: string, user: UserRow)

  /** What `authenticateToken` decides: 401, 403, or go on with `req.user`. */
  datatype AuthOutcome = Unauthorized | Forbidden | Authenticated(user: Claims)

  function RowEmail(u: UserRow): string
  {
    u.email
  }

  // ---------------------------------------------------------------- authenticateToken

  /** `authHeader && authHeader.split(' ')[1]`, with a missing or empty token as `None`. */
  function BearerToken(header: Option<string>): (token: Option<string>)
    ensures token.Some? ==> header.Some? && token.value != "" && ' ' !in token.value
  {
    match header
    case None => None
    case Some(h) =>
      if h == "" then None
      else
        var parts := Split(h, ' ');
        if |parts| < 2 || parts[1] == "" then None else Some(parts[1])
  }

  /** The token is the second space-separated field of the header, whatever follows it. */
  lemma BearerTokenOfFields(fields: seq<string>)
    requires |fields| >= 2
    requires forall i :: 0 <= i < |fields| ==> ' ' !in fields[i]
    ensures BearerToken(Some(Join(fields, ' '))) == if fields[1] == "" then None else Some(fields[1])
  {
    SplitJoin(fields, ' ');
  }

  /** A header with no space in it carries no token. */
  lemma NoSpaceNoToken(h: string)
    requires ' ' !in h
    ensures BearerToken(Some(h)) == None
  {
    SplitJoin([h], ' ');
  }

  /** Every token found really is the second field of the header it came from. */
  lemma BearerTokenIsSecondField(h: string)
    requires BearerToken(Some(h)).Some?
    ensures var parts := Split(h, ' ');
      |parts| >= 2 && Join(parts, ' ') == h && parts[1] == BearerToken(Some(h)).value
  {
    JoinSplit(h, ' ');
  }

  /** `authenticateToken`: no token is 401, a token the verifier rejects is 403. */
  function Authenticate(header: Option<string>, verify: string -> Option<Claims>): (r: AuthOutcome)
    ensures r.Unauthorized? <==> BearerToken(header).None?
    ensures r.Forbidden? <==> BearerToken(header).Some? && verify(BearerToken(header).value).None?
    ensures r.Authenticated? ==> verify(BearerToken(header).value) == Some(r.user)
  {
    match BearerToken(header)
    case None => Unauthorized
    case Some(token) =>
      match verify(token)
      case None => Forbidden
      case Some(user) => Authenticated(user)
  }

  /** The reply for a request the middleware stops. */
  function Denied<T>(outcome: AuthOutcome): (r: Response<T>)
    requires !outcome.Authenticated?
    ensures outcome.Unauthorized? ==> r == Fail(401, "Unauthorized")
    ensures outcome.Forbidden? ==> r == Fail(403, "Forbidden")
  {
    if outcome.Unauthorized? then Fail(401, "Unauthorized") else Fail(403, "Forbidden")
  }

  /** The payload `generateToken` signs for a user. */
  function TokenPayload(u: UserRow): Claims
  {
    Claims(u.id, u.email, u.lineofbusiness)
  }

  /**
   * A token from `POST /api/auth/login`, sent back as `Bearer <token>` (as the front end does),
   * authenticates as the user it was issued for, provided the verifier accepts what the signer
   * produced and the token has no space in it.
   */
  lemma LoginTokenAuthenticates(
    u: UserRow, scheme: string, sign: Claims -> string, verify: string -> Option<Claims>)
    requires verify(sign(TokenPayload(u))) == Some(TokenPayload(u))
    requires ' ' !in scheme && ' ' !in sign(TokenPayload(u)) && sign(TokenPayload(u)) != ""
    ensures Authenticate(Some(scheme + " " + sign(TokenPayload(u))), verify) == Authenticated(TokenPayload(u))
  {
    var token := sign(TokenPayload(u));
    BearerTokenOfFields([scheme, token]);
    assert Join([scheme, token], ' ') == scheme + " " + token;
  }

  // ---------------------------------------------------------------- uploadToS3

  const Bucket: string := "pdi-idea-submission"
  const UrlPrefix: string := "https://" + Bucket + ".s3.us-east-1.amazonaws.com/"

  /** The object key: `attachments/<userId>/<Date.now()>_<originalname>`. */
  function S3Key(userId: string, timestamp: nat, originalName: string): string
  {
    "attachments/" + userId + "/" + DecimalString(timestamp) + "_" + originalName
  }

  /** The URL `uploadToS3` returns for a key. */
  function ObjectUrl(key: string): string
  {
    UrlPrefix + key
  }

  /** The key a bucket URL points at, if it is one (the reference reading of `ObjectUrl`). */
  function KeyOfUrl(url: string): Option<string>
  {
    if UrlPrefix <= url then Some(url[|UrlPrefix|..]) else None
  }

  lemma UrlRoundTrip(key: string)
    ensures KeyOfUrl(ObjectUrl(key)) == Some(key)
  {
  }

  /**
   * The key lies under the user's folder, ends in `_` and the original name, and between them
   * holds the timestamp's decimal digits.
   */
  lemma S3KeyShape(userId: string, timestamp: nat, originalName: string)
    ensures var key := S3Key(userId, timestamp, originalName);
      var folder := "attachments/" + userId + "/";
      var digits := DecimalString(timestamp);
      && folder <= key
      && key[|folder|..|folder| + |digits|] == digits
      && DecimalValue(key[|folder|..|folder| + |digits|]) == timestamp
      && key[|folder| + |digits|..] == "_" + originalName
  {
    var key := S3Key(userId, timestamp, originalName);
    var folder := "attachments/" + userId + "/";
    var digits := DecimalString(timestamp);
    assert key == folder + digits + ("_" + originalName);
    DecimalRoundTrip(timestamp);
  }

  /** For one user and one file name, different timestamps give different keys. */
  lemma S3KeyDistinguishesTimestamps(userId: string, t1: nat, t2: nat, originalName: string)
    requires S3Key(userId, t1, originalName) == S3Key(userId, t2, originalName)
    ensures t1 == t2
  {
    S3KeyShape(userId, t1, originalName);
    S3KeyShape(userId, t2, originalName);
    assert |DecimalString(t1)| == |DecimalString(t2)|;
  }

  // ---------------------------------------------------------------- row mappings

  /** `coApplicantsArray.map(c => ({ ideaid, coapplicantname: c.email }))`. */
  function CoApplicantRows(ideaId: string, entries: seq<CoApplicantEntry>): (rows: seq<CoApplicantRow>)
    ensures |rows| == |entries|
    ensures forall i :: 0 <= i < |entries| ==> rows[i].ideaid == ideaId && rows[i].coapplicantname == entries[i].email
  {
    seq(|entries|, i requires 0 <= i < |entries| => CoApplicantRow(ideaId, entries[i].email))
  }

  /** The co-applicant rows written for a form field: one per array element, none otherwise. */
  function CoApplicantRowsFor(ideaId: string, field: CoApplicantsField): (rows: seq<CoApplicantRow>)
    ensures !field.ArrayOf? ==> rows == []
    ensures field.ArrayOf? ==> |rows| == |field.entries|
    ensures forall i :: 0 <= i < |rows| ==> rows[i].ideaid == ideaId
  {
    if field.ArrayOf? then CoApplicantRows(ideaId, field.entries) else []
  }

  /** The attachment rows for the uploaded files, in order, each pointing at its S3 object. */
  function AttachmentRows(ideaId: string, userId: string, files: seq<UploadedFile>, now: nat): (rows: seq<AttachmentRow>)
    ensures |rows| == |files|
    ensures forall i :: 0 <= i < |files| ==>
      && rows[i].filename == files[i].originalname
      && rows[i].ideaid == ideaId
      && KeyOfUrl(rows[i].fileurl) == Some(S3Key(userId, now, files[i].originalname))
  {
    var rows := seq(|files|, i requires 0 <= i < |files| =>
      AttachmentRow(files[i].originalname, ObjectUrl(S3Key(userId, now, files[i].originalname)), ideaId));
    forall i | 0 <= i < |files|
      ensures KeyOfUrl(rows[i].fileurl) == Some(S3Key(userId, now, files[i].originalname))
    {
      UrlRoundTrip(S3Key(userId, now, files[i].originalname));
    }
    rows
  }

  // ---------------------------------------------------------------- review history

  /** The status of the most recent review row of an idea, if it has any. */
  function LastReviewStatus(reviews: seq<ReviewRow>, ideaId: string): (s: Option<string>)
    ensures s.None? <==> forall i :: 0 <= i < |reviews| ==> reviews[i].ideaid != ideaId
    ensures s.Some? ==> exists i :: 0 <= i < |reviews| && reviews[i].ideaid == ideaId && reviews[i].status == s.value
                          && forall j :: i < j < |reviews| ==> reviews[j].ideaid != ideaId
  {
    if |reviews| == 0 then None
    else if reviews[|reviews| - 1].ideaid == ideaId then Some(reviews[|reviews| - 1].status)
    else LastReviewStatus(reviews[..|reviews| - 1], ideaId)
  }

  /** Appending a review row changes the last status of its own idea only. */
  lemma LastReviewAfterAppend(reviews: seq<ReviewRow>, row: ReviewRow, ideaId: string)
    ensures LastReviewStatus(reviews + [row], ideaId) ==
      if row.ideaid == ideaId then Some(row.status) else LastReviewStatus(reviews, ideaId)
  {
  }

  /** The lifecycle invariant: SUBMITTED until reviewed, then the last review's status. */
  ghost predicate StatusFollowsReviews(idea: IdeaRow, reviews: seq<ReviewRow>)
  {
    idea.status == LastReviewStatus(reviews, idea.id).GetOr(IdeaStatusName(Submitted))
  }

  ghost predicate EmailsUnique(users: seq<UserRow>)
  {
    forall i, j :: 0 <= i < j < |users| ==> users[i].email != users[j].email
  }

  class Store {
    var users: seq<UserRow>
    var ideas: map<string, IdeaRow>
    var coApplicants: seq<CoApplicantRow>
    var attachments: seq<AttachmentRow>
    var reviews: seq<ReviewRow>

    ghost predicate Valid()
      reads this
    {
      && EmailsUnique(users)
      && (forall id :: id in ideas ==> ideas[id].id == id && StatusFollowsReviews(ideas[id], reviews))
      && (forall i :: 0 <= i < |reviews| ==> reviews[i].ideaid in ideas)
      && (forall i :: 0 <= i < |coApplicants| ==> coApplicants[i].ideaid in ideas)
      && (forall i :: 0 <= i < |attachments| ==> attachments[i].ideaid in ideas)
    }

    constructor ()
      ensures Valid()
      ensures users == [] && ideas == map[] && coApplicants == [] && attachments == [] && reviews == []
    {
      users := [];
      ideas := map[];
      coApplicants := [];
      attachments := [];
      reviews := [];
    }

    /** `prisma.user.findUnique({ where: { email } })`, as a position. */
    method FindUserByEmail(email: string) returns (k: int)
      ensures k == Seqs.FirstIndex(users, RowEmail, email)
    {
      k := 0;
      while k < |users| && users[k].email != email
        invariant 0 <= k <= |users|
        invariant forall j :: 0 <= j < k ==> users[j].email != email
      {
        k := k + 1;
      }
      if k == |users| {
        k := -1;
      }
    }

    /** `POST /api/auth/login`: 401 for an unknown email, else the user and a token signed for it. */
    method Login(email: string, sign: Claims -> string) returns (r: Response<LoginBody>)
      ensures r.Fail? <==> forall j :: 0 <= j < |users| ==> users[j].email != email
      ensures r.Fail? ==> r == Fail(401, "Invalid credentials")
      ensures r.Reply? ==> r.code == 200 && r.body.user in users && r.body.user.email == email
      ensures r.Reply? ==> r.body.token == sign(TokenPayload(r.body.user))
    {
      var k := FindUserByEmail(email);
      if k < 0 {
        r := Fail(401, "Invalid credentials");
      } else {
        var u := users[k];
        r := Reply(200, LoginBody(sign(TokenPayload(u)), u));
      }
    }

    /**
     * `POST /api/auth/register`: the stored role is APPLICANT whatever the body asked for. A
     * second account with a taken email breaks the store's unique constraint, which the error
     * middleware turns into a 500.
     */
    method Register(
      email: string, name: string, requestedRole: string, department: string,
      lineofbusiness: string, newId: string, now: nat)
      returns (r: Response<UserRow>)
      requires Valid()
      modifies this
      ensures Valid()
      ensures ideas == old(ideas) && reviews == old(reviews)
      ensures coApplicants == old(coApplicants) && attachments == old(attachments)
      ensures (exists j :: 0 <= j < |old(users)| && old(users)[j].email == email) ==>
                r == Fail(500, "Something went wrong!") && users == old(users)
      ensures (forall j :: 0 <= j < |old(users)| ==> old(users)[j].email != email) ==>
                && r == Reply(201, UserRow(newId, email, name, RoleName(Applicant), department, lineofbusiness, now, now))
                && users == old(users) + [r.body]
    {
      var k := FindUserByEmail(email);
      if k >= 0 {
        r := Fail(500, "Something went wrong!");
        return;
      }
      var u := UserRow(newId, email, name, RoleName(Applicant), department, lineofbusiness, now, now);
      users := users + [u];
      r := Reply(201, u);
    }

    /**
     * `POST /api/ideas`. After the middleware, the idea row is written first (SUBMITTED, owned by
     * the token's user); then one co-applicant row per array element; then, when files came, one
     * attachment row per file. A `coApplicants` field that is not JSON, or a failed upload, ends
     * the request with 500 and leaves the rows written before it in place.
     */
    method CreateIdea(
      header: Option<string>, verify: string -> Option<Claims>,
      title: string, description: string, expectedImpact: string, lineOfBusiness: string,
      coApplicantsField: CoApplicantsField, files: seq<UploadedFile>, uploadsSucceed: bool,
      newId: string, now: nat)
      returns (r: Response<IdeaRow>)
      requires Valid()
      requires newId !in ideas
      modifies this
      ensures Valid()
      ensures users == old(users) && reviews == old(reviews)
      ensures !Authenticate(header, verify).Authenticated? ==>
                && r == Denied(Authenticate(header, verify))
                && ideas == old(ideas) && coApplicants == old(coApplicants) && attachments == old(attachments)
      ensures Authenticate(header, verify).Authenticated? ==>
                var user := Authenticate(header, verify).user;
                var idea := IdeaRow(newId, title, description, expectedImpact, IdeaStatusName(Submitted), lineOfBusiness, user.id);
                var uploaded := !coApplicantsField.Unparsable? && |files| > 0 && uploadsSucceed;
                && ideas == old(ideas)[newId := idea]
                && coApplicants == old(coApplicants) + CoApplicantRowsFor(newId, coApplicantsField)
                && attachments == old(attachments) + (if uploaded then AttachmentRows(newId, user.id, files, now) else [])
                && (if coApplicantsField.Unparsable? || (|files| > 0 && !uploadsSucceed)
                    then r == Fail(500, "Failed to create idea")
                    else r == Reply(201, idea))
    {
      var outcome := Authenticate(header, verify);
      if !outcome.Authenticated? {
        r := Denied(outcome);
        return;
      }
      var user := outcome.user;
      var idea := IdeaRow(newId, title, description, expectedImpact, IdeaStatusName(Submitted), lineOfBusiness, user.id);
      assert LastReviewStatus(reviews, newId).None?;
      ideas := ideas[newId := idea];
      if coApplicantsField.Unparsable? {
        r := Fail(500, "Failed to create idea");
        return;
      }
      coApplicants := coApplicants + CoApplicantRowsFor(newId, coApplicantsField);
      if |files| > 0 {
        if !uploadsSucceed {
          r := Fail(500, "Failed to create idea");
          return;
        }
        attachments := attachments + AttachmentRows(newId, user.id, files, now);
      }
      r := Reply(201, idea);
    }

    /**
     * `POST /api/ideas/:id/reviews`. After the middleware: 404 and nothing written for an
     * unknown idea; otherwise one review row by the token's user, then the idea's status set to
     * the request's status. No role, ownership, stage or terminal-status check is made.
     */
    method PostReview(
      header: Option<string>, verify: string -> Option<Claims>,
      ideaId: string, stage: string, status: string, comments: string, now: nat)
      returns (r: Response<ReviewRow>)
      requires Valid()
      modifies this
      ensures Valid()
      ensures users == old(users) && coApplicants == old(coApplicants) && attachments == old(attachments)
      ensures !Authenticate(header, verify).Authenticated? ==>
                r == Denied(Authenticate(header, verify)) && ideas == old(ideas) && reviews == old(reviews)
      ensures Authenticate(header, verify).Authenticated? && ideaId !in old(ideas) ==>
                r == Fail(404, "Idea not found") && ideas == old(ideas) && reviews == old(reviews)
      ensures Authenticate(header, verify).Authenticated? && ideaId in old(ideas) ==>
                var row := ReviewRow(ideaId, Authenticate(header, verify).user.id, stage, status, comments, now);
                && r == Reply(201, row)
                && reviews == old(reviews) + [row]
                && ideas == old(ideas)[ideaId := old(ideas)[ideaId].(status := status)]
    {
      var outcome := Authenticate(header, verify);
      if !outcome.Authenticated? {
        r := Denied(outcome);
        return;
      }
      if ideaId !in ideas {
        r := Fail(404, "Idea not found");
        return;
      }
      var row := ReviewRow(ideaId, outcome.user.id, stage, status, comments, now);
      forall id | id in ideas
        ensures LastReviewStatus(reviews + [row], id) ==
                  if id == ideaId then Some(status) else LastReviewStatus(reviews, id)
      {
        LastReviewAfterAppend(reviews, row, id);
      }
      reviews := reviews + [row];
      ideas := ideas[ideaId := ideas[ideaId].(status := status)];
      r := Reply(201, row);
    }
  }
}
