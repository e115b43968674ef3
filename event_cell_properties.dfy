/** What the event cell promises, stated against reference definitions that
    read the payload by its shape rather than through the casts and
    fallbacks of the initialiser. */
module EventCellProperties {
  import opened Text
  import opened Events
  import opened EventCell

  /** Whether a payload is of the kind the formatter casts to for type `t`. */
  predicate Fits(t: EventType, p: Payload)
  {
    match (t, p)
    case (Create, OfCreate(_)) => true
    case (IssueComment, OfIssueComment(_)) => true
    case (Issues, OfIssues(_)) => true
    case (Member, OfMember(_)) => true
    case (PullRequest, OfPullRequest(_)) => true
    case (PullRequestReviewComment, OfPullRequestReviewComment(_)) => true
    case (Push, OfPush(_)) => true
    case (Release, OfRelease(_)) => true
    case _ => false
  }

  /** The comment body an event carries, if it is a comment event whose
      payload holds one. */
  function CommentBody(e: Event): string
  {
    match (e.eventType, e.payload)
    case (IssueComment, Some(OfIssueComment(IssueCommentPayload(_, Some(Comment(Some(b))))))) => b
    case (PullRequestReviewComment,
          Some(OfPullRequestReviewComment(PullRequestReviewCommentPayload(_, Some(Comment(Some(b))))))) => b
    case _ => ""
  }

  /** The issue number a payload holds, if it is an issue-comment payload. */
  function IssueNumber(p: Option<Payload>): Option<Int64>
  {
    match p
    case Some(OfIssueComment(IssueCommentPayload(Some(Issue(Some(n))), _))) => Some(n)
    case _ => None
  }

  /** The number a pull-request payload holds. */
  function PullRequestNumber(p: Option<Payload>): Option<Int64>
  {
    match p
    case Some(OfPullRequest(PullRequestPayload(_, Some(n)))) => Some(n)
    case _ => None
  }

  /** The action a pull-request payload holds. */
  function PullRequestAction(p: Option<Payload>): Option<string>
  {
    match p
    case Some(OfPullRequest(PullRequestPayload(Some(a), _))) => Some(a)
    case _ => None
  }

  /** The pull-request number a review-comment payload holds. */
  function ReviewedPullRequestNumber(p: Option<Payload>): Option<Int64>
  {
    match p
    case Some(OfPullRequestReviewComment(PullRequestReviewCommentPayload(Some(PullRequestRef(Some(n))), _))) => Some(n)
    case _ => None
  }

  /** The ref a push payload holds. */
  function PushedRef(p: Option<Payload>): Option<string>
  {
    match p
    case Some(OfPush(PushPayload(Some(r)))) => Some(r)
    case _ => None
  }

  /** The action an issues payload holds. */
  function IssuesAction(p: Option<Payload>): Option<string>
  {
    match p
    case Some(OfIssues(IssuesPayload(Some(a)))) => Some(a)
    case _ => None
  }

  /** The action and the new collaborator's login a member payload holds. */
  function MemberActionAndLogin(p: Option<Payload>): (Option<string>, Option<string>)
  {
    match p
    case Some(OfMember(MemberPayload(a, Some(User(l, _))))) => (a, l)
    case Some(OfMember(MemberPayload(a, None))) => (a, None)
    case _ => (None, None)
  }

  /** The action and the release name a release payload holds. */
  function ReleaseActionAndName(p: Option<Payload>): (Option<string>, Option<string>)
  {
    match p
    case Some(OfRelease(ReleasePayload(a, Some(ReleaseRef(n))))) => (a, n)
    case Some(OfRelease(ReleasePayload(a, None))) => (a, None)
    case _ => (None, None)
  }

  /** The raw value of the ref type and the ref a create payload holds, with
      `""` for each when there is no create payload and for a missing ref. */
  function CreatedRefTypeAndRef(p: Option<Payload>): (string, string)
  {
    match p
    case Some(OfCreate(CreatePayload(t, r))) => (t.RawValue(), r.GetOr(""))
    case _ => ("", "")
  }

  /** The title is the actor's login, the action text and the repository's
      full name with one space between each; with no actor the title starts
      with a space, and there is no avatar either. */
  lemma TitleWithoutActor(e: Event, toRelative: Date -> string, toUrl: string -> Option<Url>)
    requires e.actor == None
    ensures Present(e, toRelative, toUrl).title == " " + Describe(e).text + " " + RepoName(e)
    ensures Present(e, toRelative, toUrl).imageUrl == None
  {
    assert ActorName(e) == "";
    assert "" + " " + Describe(e).text == " " + Describe(e).text;
  }

  /** A push without a ref keeps both separators around the empty token. */
  lemma {:induction false} PushText(e: Event)
    requires e.eventType == Push
    ensures Describe(e).text == "pushed to" + " " + PushedRef(e.payload).GetOr("") + " " + "at"
    ensures PushedRef(e.payload) == None ==> Describe(e).text == "pushed to  at"
    ensures Describe(e).badge == Some(PushBadge)
  {
    var ref := PushedRef(e.payload).GetOr("");
    assert Describe(e).text == Join(["pushed to", ref, "at"], " ") by {
      var payload := AsPush(e.payload);
      assert ref == if payload.Some? then payload.value.ref.GetOr("") else "";
    }
    JoinThree("pushed to", ref, "at", " ");
    if PushedRef(e.payload) == None {
      assert "pushed to" + " " + "" + " " + "at" == "pushed to  at";
    }
  }

  /** An unlisted type has no action text, no badge and no body, so its
      title is actor and repository separated by two spaces. */
  lemma UnlistedType(e: Event, toRelative: Date -> string, toUrl: string -> Option<Url>)
    requires e.eventType.Other?
    ensures Present(e, toRelative, toUrl).title == ActorName(e) + "  " + RepoName(e)
    ensures Present(e, toRelative, toUrl).badge == None
    ensures Present(e, toRelative, toUrl).secondDetail == ""
  {
  }

  /** The second detail is the body of the comment of a comment event, and
      empty for every other event and for a comment event without one. */
  lemma SecondDetailIsCommentBody(e: Event, toRelative: Date -> string, toUrl: string -> Option<Url>)
    ensures Present(e, toRelative, toUrl).secondDetail == CommentBody(e)
  {
    var body := Describe(e).body;
    assert Present(e, toRelative, toUrl).secondDetail == body;
    assert body == CommentBody(e) by {
      if e.eventType == IssueComment {
        var payload := AsIssueComment(e.payload);
        assert body == if payload.Some? && payload.value.comment.Some? then payload.value.comment.value.body.GetOr("") else "";
      } else if e.eventType == PullRequestReviewComment {
        var payload := AsPullRequestReviewComment(e.payload);
        assert body == if payload.Some? && payload.value.comment.Some? then payload.value.comment.value.body.GetOr("") else "";
      } else {
        assert body == "";
      }
    }
  }

  /** A missing number is rendered as `#0`. */
  lemma ZeroToken()
    ensures NumberToken(0) == "#0"
  {
    assert IntToString(0) == [DigitChar(0)];
  }

  /** An issue comment names the issue number, `#0` when there is none. */
  lemma {:induction false} IssueCommentText(e: Event)
    requires e.eventType == IssueComment
    ensures Describe(e).text ==
              "commented on issue" + " " + NumberToken(IssueNumber(e.payload).GetOr(0)) + " " + "at"
    ensures IssueNumber(e.payload) == None ==>
              Describe(e).text == "commented on issue" + " " + "#0" + " " + "at"
    ensures Describe(e).badge == Some(CommentBadge)
  {
    var n := IssueNumber(e.payload).GetOr(0);
    assert Describe(e).text == Join(["commented on issue", NumberToken(n), "at"], " ") by {
      var payload := AsIssueComment(e.payload);
      assert n == if payload.Some? && payload.value.issue.Some? then payload.value.issue.value.number.GetOr(0) else 0;
    }
    JoinThree("commented on issue", NumberToken(n), "at", " ");
    ZeroToken();
  }

  /** The issue number can be read back from the action text: distinct
      issues are never rendered alike. */
  lemma IssueNumberReadBack(e: Event)
    requires e.eventType == IssueComment
    ensures var t := Describe(e).text;
      var n := IssueNumber(e.payload).GetOr(0);
      var start := |"commented on issue #"|;
      var end := |t| - |" at"|;
      var digits := IntToString(n);
      start < end && t[start..end] == digits && ParseInt(digits) == n
  {
    var n := IssueNumber(e.payload).GetOr(0);
    var digits := IntToString(n);
    var t := Describe(e).text;
    assert t == "commented on issue" + " " + ("#" + digits) + " " + "at" by {
      IssueCommentText(e);
    }
    assert t[|"commented on issue #"|..|t| - |" at"|] == digits by {
      NumberSlice("commented on issue", digits, "at");
      assert |"commented on issue #"| == |"commented on issue"| + 2;
      assert |" at"| == |"at"| + 1;
    }
    ParseIntToString(n);
  }

  /** A `#<digits>` token between two others is cut out again by position. */
  lemma NumberSlice(before: string, digits: string, after: string)
    ensures var t := before + " " + ("#" + digits) + " " + after;
      t[|before| + 2..|t| - |after| - 1] == digits
  {
    var t := before + " " + ("#" + digits) + " " + after;
    assert t == (before + " #") + digits + (" " + after);
  }

  /** A pull-request event names the action and the number, `#0` when the
      number is missing. */
  lemma {:induction false} PullRequestText(e: Event)
    requires e.eventType == PullRequest
    ensures Describe(e).text ==
              PullRequestAction(e.payload).GetOr("") + " " + "pull request" + " " +
              NumberToken(PullRequestNumber(e.payload).GetOr(0)) + " " + "in"
    ensures PullRequestNumber(e.payload) == None ==>
              Describe(e).text == PullRequestAction(e.payload).GetOr("") + " " + "pull request" + " " + "#0" + " " + "in"
    ensures Describe(e).badge == Some(PullRequestBadge)
  {
    var action := PullRequestAction(e.payload).GetOr("");
    var n := PullRequestNumber(e.payload).GetOr(0);
    assert Describe(e).text == Join([action, "pull request", NumberToken(n), "in"], " ") by {
      var payload := AsPullRequest(e.payload);
      assert action == if payload.Some? then payload.value.action.GetOr("") else "";
      assert n == if payload.Some? then payload.value.number.GetOr(0) else 0;
    }
    JoinFour(action, "pull request", NumberToken(n), "in", " ");
    ZeroToken();
  }

  /** A review comment names the pull-request number, `#0` when missing. */
  lemma {:induction false} ReviewCommentText(e: Event)
    requires e.eventType == PullRequestReviewComment
    ensures Describe(e).text ==
              "commented on pull request" + " " + NumberToken(ReviewedPullRequestNumber(e.payload).GetOr(0)) + " " + "in"
    ensures ReviewedPullRequestNumber(e.payload) == None ==>
              Describe(e).text == "commented on pull request" + " " + "#0" + " " + "in"
    ensures Describe(e).badge == Some(CommentBadge)
  {
    var n := ReviewedPullRequestNumber(e.payload).GetOr(0);
    assert Describe(e).text == Join(["commented on pull request", NumberToken(n), "in"], " ") by {
      var payload := AsPullRequestReviewComment(e.payload);
      assert n == if payload.Some? && payload.value.pullRequest.Some? then payload.value.pullRequest.value.number.GetOr(0) else 0;
    }
    JoinThree("commented on pull request", NumberToken(n), "in", " ");
    ZeroToken();
  }

  /** An issues event names the action; the issue number is not shown. */
  lemma {:induction false} IssuesText(e: Event)
    requires e.eventType == Issues
    ensures Describe(e).text == IssuesAction(e.payload).GetOr("") + " " + "issue" + " " + "in"
    ensures Describe(e).badge == Some(IssueBadge)
  {
    var action := IssuesAction(e.payload).GetOr("");
    assert Describe(e).text == Join([action, "issue", "in"], " ") by {
      var payload := AsIssues(e.payload);
      assert action == if payload.Some? then payload.value.action.GetOr("") else "";
    }
    JoinThree(action, "issue", "in", " ");
  }

  /** A member event names the action and the collaborator's login. */
  lemma {:induction false} MemberText(e: Event)
    requires e.eventType == Member
    ensures Describe(e).text ==
              MemberActionAndLogin(e.payload).0.GetOr("") + " " +
              MemberActionAndLogin(e.payload).1.GetOr("") + " " + "as a collaborator to"
    ensures Describe(e).badge == Some(CollaboratorBadge)
  {
    var action := MemberActionAndLogin(e.payload).0.GetOr("");
    var login := MemberActionAndLogin(e.payload).1.GetOr("");
    assert Describe(e).text == Join([action, login, "as a collaborator to"], " ") by {
      var payload := AsMember(e.payload);
      assert action == if payload.Some? then payload.value.action.GetOr("") else "";
      assert login == if payload.Some? && payload.value.member.Some? then payload.value.member.value.login.GetOr("") else "";
    }
    JoinThree(action, login, "as a collaborator to", " ");
  }

  /** A release event names the action and the release's name, and wears
      the tag badge. */
  lemma {:induction false} ReleaseText(e: Event)
    requires e.eventType == Release
    ensures Describe(e).text ==
              ReleaseActionAndName(e.payload).0.GetOr("") + " " + "release" + " " +
              ReleaseActionAndName(e.payload).1.GetOr("") + " " + "in"
    ensures Describe(e).badge == Some(TagBadge)
  {
    var action := ReleaseActionAndName(e.payload).0.GetOr("");
    var name := ReleaseActionAndName(e.payload).1.GetOr("");
    assert Describe(e).text == Join([action, "release", name, "in"], " ") by {
      var payload := AsRelease(e.payload);
      assert action == if payload.Some? then payload.value.action.GetOr("") else "";
      assert name == if payload.Some? && payload.value.release.Some? then payload.value.release.value.name.GetOr("") else "";
    }
    JoinFour(action, "release", name, "in", " ");
  }

  /** A `create` event's badge is fixed by the payload's ref type alone, and
      is absent without a create payload. */
  lemma CreateBadge(e: Event)
    requires e.eventType == Create
    ensures Describe(e).badge ==
              match e.payload
              case Some(OfCreate(p)) =>
                Some(match p.refType
                     case RepositoryRef => RepositoryBadge
                     case BranchRef => BranchBadge
                     case TagRef => TagBadge)
              case _ => None
  {
  }

  /** Two `create` events get the same badge exactly when their payloads
      name the same ref type. */
  lemma CreateBadgeDependsOnlyOnRefType(e1: Event, e2: Event, p1: CreatePayload, p2: CreatePayload)
    requires e1.eventType == Create && e2.eventType == Create
    requires e1.payload == Some(OfCreate(p1)) && e2.payload == Some(OfCreate(p2))
    ensures Describe(e1).badge == Describe(e2).badge <==> p1.refType == p2.refType
  {
  }

  /** The text of a `create` event: the ref type's raw value and the ref.
      Without a create payload both are empty, and the three separators
      around them remain. */
  lemma {:induction false} CreateText(e: Event)
    requires e.eventType == Create
    ensures Describe(e).text ==
              "created" + " " + CreatedRefTypeAndRef(e.payload).0 + " " +
              CreatedRefTypeAndRef(e.payload).1 + " " + "in"
    ensures !(e.payload.Some? && e.payload.value.OfCreate?) ==> Describe(e).text == "created   in"
  {
    var refType := CreatedRefTypeAndRef(e.payload).0;
    var ref := CreatedRefTypeAndRef(e.payload).1;
    assert Describe(e).text == Join(["created", refType, ref, "in"], " ") by {
      var payload := AsCreate(e.payload);
      assert refType == if payload.Some? then payload.value.refType.RawValue() else "";
      assert ref == if payload.Some? then payload.value.ref.GetOr("") else "";
    }
    JoinFour("created", refType, ref, "in", " ");
    if !(e.payload.Some? && e.payload.value.OfCreate?) {
      assert "created" + " " + "" + " " + "" + " " + "in" == "created   in";
    }
  }

  /** `fork` and `star` look at nothing but the type. */
  lemma ForkAndStarIgnorePayload(e1: Event, e2: Event)
    requires e1.eventType == e2.eventType
    requires e1.eventType == Fork || e1.eventType == Star
    ensures Describe(e1) == Describe(e2)
    ensures e1.eventType == Fork ==> Describe(e1) == Action("forked", Some(ForkBadge), "")
    ensures e1.eventType == Star ==> Describe(e1) == Action("starred", Some(StarBadge), "")
  {
  }

  /** A payload of the wrong kind is treated exactly like a missing one. */
  lemma WrongPayloadIsMissing(e: Event)
    requires e.payload.Some? && !Fits(e.eventType, e.payload.value)
    ensures Describe(e) == Describe(e.(payload := None))
  {
  }

  /** Two cells are equal exactly when their events are, whatever the
      formatters used, and every cell has the same badge colour. */
  lemma SameCellIffSameEvent(e1: Event, e2: Event,
                             toRelative1: Date -> string, toUrl1: string -> Option<Url>,
                             toRelative2: Date -> string, toUrl2: string -> Option<Url>)
    ensures SameCell(Present(e1, toRelative1, toUrl1), Present(e2, toRelative2, toUrl2)) <==> e1 == e2
    ensures Present(e1, toRelative1, toUrl1).badgeColor == Present(e2, toRelative2, toUrl2).badgeColor
  {
  }

  /** `SameCell` meets the laws Swift's `Equatable` asks of `==`: it is
      reflexive, symmetric and transitive. */
  lemma SameCellIsEquivalence(a: EventCellViewModel, b: EventCellViewModel, c: EventCellViewModel)
    ensures SameCell(a, a)
    ensures SameCell(a, b) ==> SameCell(b, a)
    ensures SameCell(a, b) && SameCell(b, c) ==> SameCell(a, c)
  {
  }

  // Worked examples.

  lemma StarExample(e: Event, toRelative: Date -> string, toUrl: string -> Option<Url>)
    requires e.eventType == Star
    requires e.actor == Some(User(Some("alice"), None)) && e.repository == Some(Repository(Some("org/repo")))
    ensures Present(e, toRelative, toUrl).title == "alice starred org/repo"
  {
    assert Present(e, toRelative, toUrl).title == "alice" + " " + "starred" + " " + "org/repo";
  }

  lemma PushExample(e: Event, toRelative: Date -> string, toUrl: string -> Option<Url>)
    requires e.eventType == Push
    requires e.actor == Some(User(Some("bob"), None)) && e.repository == Some(Repository(Some("o/r")))
    requires e.payload == Some(OfPush(PushPayload(Some("refs/heads/main"))))
    ensures Present(e, toRelative, toUrl).title == "bob pushed to refs/heads/main at o/r"
  {
    PushText(e);
    PushTitleSpelledOut();
  }

  /** The title of `PushExample`, token by token. */
  lemma PushTitleSpelledOut()
    ensures "bob" + " " + ("pushed to" + " " + "refs/heads/main" + " " + "at") + " " + "o/r" ==
            "bob pushed to refs/heads/main at o/r"
  {
  }

  lemma CreateBranchExample(e: Event)
    requires e.eventType == Create
    requires e.payload == Some(OfCreate(CreatePayload(BranchRef, Some("feature-x"))))
    ensures Describe(e).text == "created branch feature-x in"
    ensures Describe(e).badge == Some(BranchBadge)
  {
    CreateText(e);
    assert CreatedRefTypeAndRef(e.payload) == ("branch", "feature-x");
  }

  lemma IssueCommentExample(e: Event, toRelative: Date -> string, toUrl: string -> Option<Url>)
    requires e.eventType == IssueComment
    requires e.payload == Some(OfIssueComment(IssueCommentPayload(Some(Issue(Some(42))), Some(Comment(Some("Looks good"))))))
    ensures Present(e, toRelative, toUrl).secondDetail == "Looks good"
    ensures Describe(e).text == "commented on issue #42 at"
  {
    assert Present(e, toRelative, toUrl).secondDetail == "Looks good" by {
      SecondDetailIsCommentBody(e, toRelative, toUrl);
    }
    assert Describe(e).text == "commented on issue" + " " + NumberToken(42) + " " + "at" by {
      IssueCommentText(e);
      assert IssueNumber(e.payload) == Some(42);
    }
    IssueCommentTextSpelledOut();
  }

  /** The action text of `IssueCommentExample`, token by token. */
  lemma IssueCommentTextSpelledOut()
    ensures "commented on issue" + " " + NumberToken(42) + " " + "at" == "commented on issue #42 at"
  {
    assert NumberToken(42) == "#42" by {
      assert NatToString(42) == NatToString(4) + [DigitChar(2)];
    }
  }
}
