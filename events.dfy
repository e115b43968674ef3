/** The activity events the formatter reads: an event of some type, the user
    who acted, the repository acted on, when it happened, and a payload whose
    kind depends on the type. Every field is optional, as in the decoded
    platform feed. */
module Events {

  /** Swift's `Optional`; `GetOr` is the `??` operator. */
  datatype Option<+T> = None | Some(value: T) {
    function GetOr(default: T): T
    {
      match this
      case Some(v) => v
      case None => default
    }
  }

  /** Swift's `Int` (64 bits), the type of issue and pull-request numbers. */
  type Int64 = i: int | -0x8000_0000_0000_0000 <= i < 0x8000_0000_0000_0000

  /** The event types the formatter distinguishes; `Other` stands for every
      type it does not list (the `default` arm of its switch). */
  datatype EventType =
    | Fork
    | Create
    | IssueComment
    | Issues
    | Member
    | PullRequest
    | PullRequestReviewComment
    | Push
    | Release
    | Star
    | Other(name: string)

  /** What a `create` event created. */
  datatype CreateEventType = RepositoryRef | BranchRef | TagRef {
    /** The enum's raw value, which is the case name. */
    function RawValue(): string
    {
      match this
      case RepositoryRef => "repository"
      case BranchRef => "branch"
      case TagRef => "tag"
    }
  }

  datatype User = User(login: Option<string>, avatarUrl: Option<string>)
  datatype Repository = Repository(fullName: Option<string>)
  datatype Issue = Issue(number: Option<Int64>)
  datatype Comment = Comment(body: Option<string>)
  datatype PullRequestRef = PullRequestRef(number: Option<Int64>)
  datatype ReleaseRef = ReleaseRef(name: Option<string>)

  /** A point in time; only the relative-time formatter looks inside it. */
  datatype Date = Date(secondsSinceEpoch: int)

  datatype CreatePayload = CreatePayload(refType: CreateEventType, ref: Option<string>)
  datatype IssueCommentPayload = IssueCommentPayload(issue: Option<Issue>, comment: Option<Comment>)
  datatype IssuesPayload = IssuesPayload(action: Option<string>)
  datatype MemberPayload = MemberPayload(action: Option<string>, member: Option<User>)
  datatype PullRequestPayload = PullRequestPayload(action: Option<string>, number: Option<Int64>)
  datatype PullRequestReviewCommentPayload =
    PullRequestReviewCommentPayload(pullRequest: Option<PullRequestRef>, comment: Option<Comment>)
  datatype PushPayload = PushPayload(ref: Option<string>)
  datatype ReleasePayload = ReleasePayload(action: Option<string>, release: Option<ReleaseRef>)

  /** The payload union: one variant per payload class the formatter casts
      to, and `OfOther` for every payload class it never casts to. */
  datatype Payload =
    | OfCreate(create: CreatePayload)
    | OfIssueComment(issueComment: IssueCommentPayload)
    | OfIssues(issues: IssuesPayload)
    | OfMember(member: MemberPayload)
    | OfPullRequest(pullRequest: PullRequestPayload)
    | OfPullRequestReviewComment(reviewComment: PullRequestReviewCommentPayload)
    | OfPush(push: PushPayload)
    | OfRelease(release: ReleasePayload)
    | OfOther(kind: string)

  datatype Event = Event(
    eventType: EventType,
    actor: Option<User>,
    repository: Option<Repository>,
    createdAt: Option<Date>,
    payload: Option<Payload>)
}
