// The in-memory prototype back end (index.js): one module-level `db` record whose arrays the
// request handlers read and push to. Ideas are stored by value; a review post replaces the
// target idea with its updated copy.
module MemoryStore {
  import opened Wrappers
  import opened Http
  import opened Types
  import Seqs

  datatype User = User(id: string, email: string, name: string, role: UserRole, department: string, lineOfBusiness: string)

  /** A review exactly as the handler builds it: stage and status are copied from the request body unchecked. */
  datatype Review = Review(
    id: string, ideaId: string, reviewerId: string,
    stage: string, status: string, comments: string, createdAt: string)

  datatype Idea = Idea(
    id: string, title: string, description: string, expectedImpact: string,
    status: string, submittedBy: string, coApplicants: seq<string>, lineOfBusiness: string,
    createdAt: string, updatedAt: string, attachments: seq<string>, reviews: seq<Review>)

  function IdeaId(idea: Idea): string
  {
    idea.id
  }

  function UserEmail(u: User): string
  {
    u.email
  }

  /** The three accounts the store starts with. */
  function SeedUsers(): seq<User>
  {
    [ User("1", "admin@example.com", "Admin User", Admin, "Technology", "SOFTWARE"),
      User("2", "reviewer@example.com", "Reviewer User", Reviewer, "R&D", "RESEARCH"),
      User("3", "user@example.com", "Regular User", Applicant, "Engineering", "HARDWARE") ]
  }

  /**
   * The lifecycle invariant the two handlers keep: an idea without reviews is SUBMITTED, and an
   * idea with reviews carries its last review's status.
   */
  ghost predicate StatusMirrorsReviews(idea: Idea)
  {
    idea.status == if idea.reviews == [] then IdeaStatusName(Submitted) else idea.reviews[|idea.reviews| - 1].status
  }

  /** Every review nested in an idea names that idea. */
  ghost predicate ReviewsBelong(idea: Idea)
  {
    forall i :: 0 <= i < |idea.reviews| ==> idea.reviews[i].ideaId == idea.id
  }

  /** The idea `POST /api/ideas` records (`Date.now()` and the clock arrive as `id` and `now`). */
  function NewIdea(
    id: string, title: string, description: string, expectedImpact: string,
    submittedBy: string, coApplicants: Option<seq<string>>, lineOfBusiness: string, now: string): (idea: Idea)
    ensures idea.id == id && idea.submittedBy == submittedBy
    ensures idea.status == IdeaStatusName(Submitted)
    ensures idea.reviews == [] && idea.attachments == []
    ensures coApplicants.None? ==> idea.coApplicants == []
    ensures coApplicants.Some? ==> idea.coApplicants == coApplicants.value
    ensures StatusMirrorsReviews(idea) && ReviewsBelong(idea)
  {
    Idea(id, title, description, expectedImpact, IdeaStatusName(Submitted), submittedBy,
         coApplicants.GetOr([]), lineOfBusiness, now, now, [], [])
  }

  /** The target idea after `idea.reviews.push(review); idea.status = status`. */
  function WithReview(idea: Idea, review: Review): Idea
  {
    idea.(reviews := idea.reviews + [review], status := review.status)
  }

  /**
   * Recording a review on an idea appends exactly that review, makes the idea's status the
   * review's status, touches no other field, and keeps the lifecycle invariant whatever the
   * idea's status was before (the handler checks no stage order and no terminal status).
   */
  lemma WithReviewEffect(idea: Idea, review: Review)
    requires review.ideaId == idea.id && ReviewsBelong(idea)
    ensures WithReview(idea, review).reviews == idea.reviews + [review]
    ensures WithReview(idea, review).status == review.status
    ensures WithReview(idea, review).(reviews := idea.reviews, status := idea.status) == idea
    ensures StatusMirrorsReviews(WithReview(idea, review)) && ReviewsBelong(WithReview(idea, review))
  {
  }

  /**
   * A verdict of APPROVED or PENDING copied into an idea leaves the idea with a status outside
   * `IdeaStatus`; only REJECTED is one of the seven idea statuses.
   */
  lemma VerdictStatusOutsideIdeaStatus(idea: Idea, review: Review, v: ReviewStatus)
    requires review.status == ReviewStatusName(v)
    ensures ParseIdeaStatus(WithReview(idea, review).status).Some? <==> v == ReviewRejected
  {
    VerdictAsIdeaStatus(v);
  }

  class Db {
    var users: seq<User>
    var ideas: seq<Idea>
    var reviews: seq<Review>
    var attachments: seq<string>

    ghost predicate Valid()
      reads this
    {
      forall i :: 0 <= i < |ideas| ==> StatusMirrorsReviews(ideas[i]) && ReviewsBelong(ideas[i])
    }

    constructor ()
      ensures Valid()
      ensures users == SeedUsers() && ideas == [] && reviews == [] && attachments == []
    {
      users := SeedUsers();
      ideas := [];
      reviews := [];
      attachments := [];
    }

    /** `db.users.find(u => u.email === email)`, as a position. */
    method FindUser(email: string) returns (k: int)
      ensures k == Seqs.FirstIndex(users, UserEmail, email)
    {
      k := 0;
      while k < |users| && users[k].email != email
        invariant 0 <= k <= |users|
        invariant forall j :: 0 <= j < k ==> users[j].email != email
      {
        k := k + 1;
      }
      if k == |users| {
        k := -1;
      }
    }

    /** `db.ideas.find(i => i.id === id)`, as a position: the first idea with that id. */
    method FindIdea(id: string) returns (k: int)
      ensures k == Seqs.FirstIndex(ideas, IdeaId, id)
    {
      k := 0;
      while k < |ideas| && ideas[k].id != id
        invariant 0 <= k <= |ideas|
        invariant forall j :: 0 <= j < k ==> ideas[j].id != id
      {
        k := k + 1;
      }
      if k == |ideas| {
        k := -1;
      }
    }

    /** `POST /api/auth/login`: the first user with that email, or 401. Nothing is written. */
    method Login(email: string) returns (r: Response<User>)
      ensures r.Fail? <==> forall j :: 0 <= j < |users| ==> users[j].email != email
      ensures r.Fail? ==> r == Fail(401, "Invalid credentials")
      ensures r.Reply? ==> r.code == 200 && r.body.email == email && r.body in users
      ensures r.Reply? ==> r.body == users[Seqs.FirstIndex(users, UserEmail, email)]
    {
      var k := FindUser(email);
      if k < 0 {
        r := Fail(401, "Invalid credentials");
      } else {
        r := Reply(200, users[k]);
      }
    }

    /** `GET /api/ideas/:id`: the first idea with that id, or 404. Nothing is written. */
    method GetIdea(id: string) returns (r: Response<Idea>)
      ensures r.Fail? <==> forall j :: 0 <= j < |ideas| ==> ideas[j].id != id
      ensures r.Fail? ==> r == Fail(404, "Idea not found")
      ensures r.Reply? ==> r.code == 200 && r.body.id == id && r.body in ideas
      ensures r.Reply? ==> r.body == ideas[Seqs.FirstIndex(ideas, IdeaId, id)]
    {
      var k := FindIdea(id);
      if k < 0 {
        r := Fail(404, "Idea not found");
      } else {
        r := Reply(200, ideas[k]);
      }
    }

    /** `POST /api/ideas`: appends one SUBMITTED idea with no reviews; nothing else changes. */
    method CreateIdea(
      title: string, description: string, expectedImpact: string, submittedBy: string,
      coApplicants: Option<seq<string>>, lineOfBusiness: string, id: string, now: string)
      returns (r: Response<Idea>)
      requires Valid()
      modifies this
      ensures Valid()
      ensures r == Reply(201, NewIdea(id, title, description, expectedImpact, submittedBy, coApplicants, lineOfBusiness, now))
      ensures ideas == old(ideas) + [r.body]
      ensures users == old(users) && reviews == old(reviews) && attachments == old(attachments)
    {
      var idea := NewIdea(id, title, description, expectedImpact, submittedBy, coApplicants, lineOfBusiness, now);
      ideas := ideas + [idea];
      r := Reply(201, idea);
    }

    /**
     * `POST /api/ideas/:id/reviews`: 404 and no change when no idea has that id; otherwise the
     * review is pushed onto the first such idea's reviews and its status overwritten with the
     * review's status. `db.reviews`, `db.users` and every other idea stay as they were.
     */
    method PostReview(
      ideaId: string, reviewerId: string, stage: string, status: string, comments: string,
      reviewId: string, now: string)
      returns (r: Response<Review>)
      requires Valid()
      modifies this
      ensures Valid()
      ensures users == old(users) && reviews == old(reviews) && attachments == old(attachments)
      ensures Seqs.FirstIndex(old(ideas), IdeaId, ideaId) < 0 ==>
                r == Fail(404, "Idea not found") && ideas == old(ideas)
      ensures var k := Seqs.FirstIndex(old(ideas), IdeaId, ideaId);
              0 <= k ==>
                && r == Reply(201, Review(reviewId, ideaId, reviewerId, stage, status, comments, now))
                && ideas == old(ideas)[k := WithReview(old(ideas)[k], r.body)]
    {
      var k := FindIdea(ideaId);
      if k < 0 {
        r := Fail(404, "Idea not found");
        return;
      }
      var review := Review(reviewId, ideaId, reviewerId, stage, status, comments, now);
      WithReviewEffect(ideas[k], review);
      ideas := ideas[k := WithReview(ideas[k], review)];
      r := Reply(201, review);
    }
  }

  /**
   * What a successful review post leaves: the list keeps its length, every idea but the target
   * is untouched, and the target's last review is the posted one and its status that review's.
   */
  lemma PostReviewFrame(ideas: seq<Idea>, k: nat, review: Review)
    requires k < |ideas| && review.ideaId == ideas[k].id
    ensures var after := ideas[k := WithReview(ideas[k], review)];
      && |after| == |ideas|
      && (forall j :: 0 <= j < |ideas| && j != k ==> after[j] == ideas[j])
      && after[k].reviews[|after[k].reviews| - 1] == review
      && after[k].status == review.status
  {
  }
}
