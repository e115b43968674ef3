/** The cell view model of one activity event: the title line, the relative
    time, the comment body shown under the title, the actor's avatar, and a
    badge icon with its colour, all derived from the event once. */
module EventCell {
  import opened Text
  import opened Events

  /** The badge icons, by resource key. */
  datatype Badge =
    | ForkBadge
    | RepositoryBadge
    | BranchBadge
    | TagBadge
    | CommentBadge
    | IssueBadge
    | CollaboratorBadge
    | PullRequestBadge
    | PushBadge
    | StarBadge

  /** The badge colours; the view model only ever uses one. */
  datatype Color = FlatGreenDark

  const BadgeColor: Color := FlatGreenDark

  /** A URL produced by the avatar-URL parser. */
  datatype Url = Url(absolute: string)

  /** `CreateEventType.image()`: the badge of a `create` event, one per kind
      of ref created. */
  function Image(t: CreateEventType): (b: Badge)
    ensures b == RepositoryBadge <==> t == RepositoryRef
    ensures b == BranchBadge <==> t == BranchRef
    ensures b == TagBadge <==> t == TagRef
  {
    match t
    case RepositoryRef => RepositoryBadge
    case BranchRef => BranchBadge
    case TagRef => TagBadge
  }

  // The `as? XPayload` casts: a payload of any other kind reads as absent.

  function AsCreate(p: Option<Payload>): Option<CreatePayload>
  {
    match p
    case Some(OfCreate(c)) => Some(c)
    case _ => None
  }

  function AsIssueComment(p: Option<Payload>): Option<IssueCommentPayload>
  {
    match p
    case Some(OfIssueComment(c)) => Some(c)
    case _ => None
  }

  function AsIssues(p: Option<Payload>): Option<IssuesPayload>
  {
    match p
    case Some(OfIssues(c)) => Some(c)
    case _ => None
  }

  function AsMember(p: Option<Payload>): Option<MemberPayload>
  {
    match p
    case Some(OfMember(c)) => Some(c)
    case _ => None
  }

  function AsPullRequest(p: Option<Payload>): Option<PullRequestPayload>
  {
    match p
    case Some(OfPullRequest(c)) => Some(c)
    case _ => None
  }

  function AsPullRequestReviewComment(p: Option<Payload>): Option<PullRequestReviewCommentPayload>
  {
    match p
    case Some(OfPullRequestReviewComment(c)) => Some(c)
    case _ => None
  }

  function AsPush(p: Option<Payload>): Option<PushPayload>
  {
    match p
    case Some(OfPush(c)) => Some(c)
    case _ => None
  }

  function AsRelease(p: Option<Payload>): Option<ReleasePayload>
  {
    match p
    case Some(OfRelease(c)) => Some(c)
    case _ => None
  }

  /** The number in a `"#\(n)"` token. */
  function NumberToken(n: Int64): string
  {
    "#" + IntToString(n)
  }

  /** What the type switch of the initialiser settles: the action text that
      goes between actor and repository, the badge, and the body text. */
  datatype Action = Action(text: string, badge: Option<Badge>, body: string)

  // The arms of the type switch, each given the payload after its cast.

  function DescribeCreate(payload: Option<CreatePayload>): Action
  {
    var refType := if payload.Some? then payload.value.refType.RawValue() else "";
    var ref := if payload.Some? then payload.value.ref.GetOr("") else "";
    Action(Join(["created", refType, ref, "in"], " "),
           if payload.Some? then Some(Image(payload.value.refType)) else None,
           "")
  }

  function DescribeIssueComment(payload: Option<IssueCommentPayload>): Action
  {
    var number := if payload.Some? && payload.value.issue.Some? then payload.value.issue.value.number.GetOr(0) else 0;
    var body := if payload.Some? && payload.value.comment.Some? then payload.value.comment.value.body.GetOr("") else "";
    Action(Join(["commented on issue", NumberToken(number), "at"], " "), Some(CommentBadge), body)
  }

  function DescribeIssues(payload: Option<IssuesPayload>): Action
  {
    var action := if payload.Some? then payload.value.action.GetOr("") else "";
    Action(Join([action, "issue", "in"], " "), Some(IssueBadge), "")
  }

  function DescribeMember(payload: Option<MemberPayload>): Action
  {
    var action := if payload.Some? then payload.value.action.GetOr("") else "";
    var login := if payload.Some? && payload.value.member.Some? then payload.value.member.value.login.GetOr("") else "";
    Action(Join([action, login, "as a collaborator to"], " "), Some(CollaboratorBadge), "")
  }

  function DescribePullRequest(payload: Option<PullRequestPayload>): Action
  {
    var action := if payload.Some? then payload.value.action.GetOr("") else "";
    var number := if payload.Some? then payload.value.number.GetOr(0) else 0;
    Action(Join([action, "pull request", NumberToken(number), "in"], " "), Some(PullRequestBadge), "")
  }

  function DescribeReviewComment(payload: Option<PullRequestReviewCommentPayload>): Action
  {
    var number := if payload.Some? && payload.value.pullRequest.Some? then payload.value.pullRequest.value.number.GetOr(0) else 0;
    var body := if payload.Some? && payload.value.comment.Some? then payload.value.comment.value.body.GetOr("") else "";
    Action(Join(["commented on pull request", NumberToken(number), "in"], " "), Some(CommentBadge), body)
  }

  function DescribePush(payload: Option<PushPayload>): Action
  {
    var ref := if payload.Some? then payload.value.ref.GetOr("") else "";
    Action(Join(["pushed to", ref, "at"], " "), Some(PushBadge), "")
  }

  function DescribeRelease(payload: Option<ReleasePayload>): Action
  {
    var action := if payload.Some? then payload.value.action.GetOr("") else "";
    var name := if payload.Some? && payload.value.release.Some? then payload.value.release.value.name.GetOr("") else "";
    Action(Join([action, "release", name, "in"], " "), Some(TagBadge), "")
  }

  /** The type switch. Every listed type yields a non-empty action text and
      a badge (for `create`, only when its payload is there); an unlisted
      type yields neither; only the two comment types carry a body. */
  function Describe(e: Event): (a: Action)
    ensures a.text == "" <==> e.eventType.Other?
    ensures a.badge == None <==>
              e.eventType.Other? || (e.eventType == Create && !(e.payload.Some? && e.payload.value.OfCreate?))
    ensures a.body != "" ==> e.eventType == IssueComment || e.eventType == PullRequestReviewComment
  {
    match e.eventType
    case Fork => Action("forked", Some(ForkBadge), "")
    case Create => DescribeCreate(AsCreate(e.payload))
    case IssueComment => DescribeIssueComment(AsIssueComment(e.payload))
    case Issues => DescribeIssues(AsIssues(e.payload))
    case Member => DescribeMember(AsMember(e.payload))
    case PullRequest => DescribePullRequest(AsPullRequest(e.payload))
    case PullRequestReviewComment => DescribeReviewComment(AsPullRequestReviewComment(e.payload))
    case Push => DescribePush(AsPush(e.payload))
    case Release => DescribeRelease(AsRelease(e.payload))
    case Star => Action("starred", Some(StarBadge), "")
    case Other(_) => Action("", None, "")
  }

  /** `event.actor?.login ?? ""` */
  function ActorName(e: Event): string
  {
    if e.actor.Some? then e.actor.value.login.GetOr("") else ""
  }

  /** `event.repository?.fullName ?? ""` */
  function RepoName(e: Event): string
  {
    if e.repository.Some? then e.repository.value.fullName.GetOr("") else ""
  }

  /** The view model's fields, as plain values. */
  datatype EventCellViewModel = EventCellViewModel(
    title: string,
    detail: string,
    secondDetail: string,
    imageUrl: Option<Url>,
    badge: Option<Badge>,
    badgeColor: Color,
    event: Event)

  /** `EventCellViewModel.init(with:)`. The relative-time formatter and the
      URL parser are collaborators outside the model, passed in. The title
      is actor, action and repository with exactly one space between each
      pair, even when a part is empty. */
  function Present(e: Event, toRelative: Date -> string, toUrl: string -> Option<Url>): (vm: EventCellViewModel)
    ensures vm.title == ActorName(e) + " " + Describe(e).text + " " + RepoName(e)
    ensures vm.detail == (if e.createdAt.Some? then toRelative(e.createdAt.value) else "")
    ensures vm.secondDetail == Describe(e).body
    ensures vm.imageUrl ==
              (if e.actor.Some? && e.actor.value.avatarUrl.Some? then toUrl(e.actor.value.avatarUrl.value) else None)
    ensures vm.badge == Describe(e).badge
    ensures vm.event == e
    ensures vm.badgeColor == FlatGreenDark
  {
    var actorName := ActorName(e);
    var action := Describe(e);
    var repoName := RepoName(e);
    JoinThree(actorName, action.text, repoName, " ");
    EventCellViewModel(
      title := Join([actorName, action.text, repoName], " "),
      detail := if e.createdAt.Some? then toRelative(e.createdAt.value) else "",
      secondDetail := action.body,
      imageUrl := if e.actor.Some? && e.actor.value.avatarUrl.Some? then toUrl(e.actor.value.avatarUrl.value) else None,
      badge := action.badge,
      badgeColor := BadgeColor,
      event := e)
  }

  /** `==` on view models: only the events are compared. */
  function SameCell(lhs: EventCellViewModel, rhs: EventCellViewModel): bool
  {
    lhs.event == rhs.event
  }
}
