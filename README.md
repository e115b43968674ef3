# Event cell formatter of SwiftHub

SwiftHub is a GitHub client for iOS. Its activity feed shows each event
(a fork, a push, a comment, ...) as a cell, and `EventCellViewModel` turns
one `Event` into that cell's fields: a title line such as
`alice pushed to refs/heads/main at org/repo`, a relative timestamp, a
second line with a comment body, the actor's avatar URL, a badge icon chosen
by the event type, and a badge colour.

The initialiser only computes values: every stored property is assigned once
and there are no loops. So the model is made of datatypes, functions and
lemmas:

- `events.dfy`, module `Events`: the event, its optional actor, repository,
  date and payload. The payload is a union with one variant per payload class
  the formatter casts to. `OfOther` covers every payload class it never casts
  to. `Option.GetOr` is Swift's `??`.
- `text.dfy`, module `Text`: `Join` is `joined(separator:)`.
  `Join(Split(s, c), [c]) == s` always holds, and `Split` recovers the tokens
  of a join when they form a non-empty list, none of whose tokens contains the
  separator. `IntToString` is the
  decimal rendering used by `"#\(n)"`, and `ParseInt` reads every rendered
  number back.
- `event_cell.dfy`, module `EventCell`: the `as?` casts, one function per
  arm of the type switch, `Describe` (the switch itself), `Present` (the
  initialiser), `SameCell` (`==` on view models) and `Image`
  (`CreateEventType.image()`).
- `event_cell_properties.dfy`, module `EventCellProperties`: the promised
  behaviour, stated against small reference functions. These read the payload
  by its shape, without going through the casts and fallbacks.

`Present` is a Dafny function, so equal events always give equal cells. This
holds by construction.

The small helpers of `event_cell.dfy` have no rows of their own. These are
`ActorName` (line 29), `RepoName` (line 78), the `As*` casts (lines 39-69),
`NumberToken` (line 44) and the per-arm `Describe*` functions. Their
behaviour is stated through the rows for `Describe`, `Present` and the
per-type lemmas below. `SameCell`, the `==` of lines 89-93, is stated by
`SameCellIffSameEvent` and `SameCellIsEquivalence`.

## Model

| member | source | states |
|---|---|---|
| `Text.Join` | SwiftHub/Modules/Events/EventCellViewModel.swift:80 | the joined string is as long as all tokens together plus one separator per adjacent pair, so no token is dropped, not even an empty one |
| `Text.JoinThree` | SwiftHub/Modules/Events/EventCellViewModel.swift:80 | joining three tokens is `a + sep + b + sep + c`, whatever the tokens hold |
| `Text.JoinFour` | SwiftHub/Modules/Events/EventCellViewModel.swift:40 | joining four tokens puts exactly one separator between each neighbouring pair |
| `Text.JoinSplit` | SwiftHub/Modules/Events/EventCellViewModel.swift:80 | splitting a string at a character and joining the pieces with that character gives the string back |
| `Text.SplitJoin` | SwiftHub/Modules/Events/EventCellViewModel.swift:80 | a non-empty list of tokens, none of which contains the separator character, is recovered by splitting its join |
| `Text.NatToString` | SwiftHub/Modules/Events/EventCellViewModel.swift:44 | a number renders as a non-empty string of digits, with no leading zero unless the number is 0 |
| `Text.IntToString` | SwiftHub/Modules/Events/EventCellViewModel.swift:44 | an `Int` in an interpolation renders as digits, with a leading minus sign exactly when it is negative |
| `Text.ParseNatToString` | SwiftHub/Modules/Events/EventCellViewModel.swift:44 | reading the digits back gives the original natural number |
| `Text.ParseIntToString` | SwiftHub/Modules/Events/EventCellViewModel.swift:57 | reading a rendered `Int` back, sign included, gives the original number |
| `Text.IntToStringInjective` | SwiftHub/Modules/Events/EventCellViewModel.swift:61 | distinct numbers never render alike |
| `EventCell.Image` | SwiftHub/Modules/Events/EventCellViewModel.swift:95-102 | the repository, branch and tag ref types map to the repository, branch and tag badges, each exactly when the ref type is that one |
| `EventCell.Describe` | SwiftHub/Modules/Events/EventCellViewModel.swift:30-76 | the action text is empty exactly for unlisted types; the badge is absent exactly for unlisted types and for `create` without a create payload; a body is only set for the two comment types |
| `EventCell.Present` | SwiftHub/Modules/Events/EventCellViewModel.swift:26-86 | the title is the actor's login, the action text and the repository's full name with one space between each, `""` standing in for a missing actor or repository; the detail is the relative time of the creation date, or `""` without one; the second detail is the action's body; the image URL is the parsed avatar URL of the actor, absent without an actor or avatar; the badge is the one the type switch chose; the cell keeps the event; the badge colour is the one fixed colour |
| `EventCellProperties.TitleWithoutActor` | SwiftHub/Modules/Events/EventCellViewModel.swift:78-83 | with no actor the title starts with a space and there is no avatar URL |
| `EventCellProperties.PushText` | SwiftHub/Modules/Events/EventCellViewModel.swift:64-67 | a push reads `pushed to <ref> at`; without a ref it is `pushed to  at`, with two spaces; the badge is the push badge |
| `EventCellProperties.UnlistedType` | SwiftHub/Modules/Events/EventCellViewModel.swift:75-82 | an unlisted type gives no badge, an empty second detail and the title actor + two spaces + repository |
| `EventCellProperties.SecondDetailIsCommentBody` | SwiftHub/Modules/Events/EventCellViewModel.swift:32-82 | the second detail is the comment body of an issue-comment or review-comment event whose payload has one, and `""` in every other case |
| `EventCellProperties.ZeroToken` | SwiftHub/Modules/Events/EventCellViewModel.swift:44 | the fallback number 0 renders as `#0` |
| `EventCellProperties.IssueCommentText` | SwiftHub/Modules/Events/EventCellViewModel.swift:42-46 | an issue comment reads `commented on issue #<n> at`, and `#0` stands for a missing payload, issue or number; the badge is the comment badge |
| `EventCellProperties.IssueNumberReadBack` | SwiftHub/Modules/Events/EventCellViewModel.swift:44 | the issue number can be read back from the issue-comment text, so different issues never read alike |
| `EventCellProperties.PullRequestText` | SwiftHub/Modules/Events/EventCellViewModel.swift:55-58 | a pull-request event reads `<action> pull request #<n> in`, and `#0` stands for a missing number; the badge is the pull-request badge |
| `EventCellProperties.ReviewCommentText` | SwiftHub/Modules/Events/EventCellViewModel.swift:59-63 | a review comment reads `commented on pull request #<n> in`, and `#0` stands for a missing pull request or number; the badge is the comment badge |
| `EventCellProperties.IssuesText` | SwiftHub/Modules/Events/EventCellViewModel.swift:47-50 | an issues event reads `<action> issue in` and has the issue badge |
| `EventCellProperties.MemberText` | SwiftHub/Modules/Events/EventCellViewModel.swift:51-54 | a member event reads `<action> <login> as a collaborator to` and has the collaborator badge |
| `EventCellProperties.ReleaseText` | SwiftHub/Modules/Events/EventCellViewModel.swift:68-71 | a release event reads `<action> release <name> in` and has the tag badge |
| `EventCellProperties.CreateBadge` | SwiftHub/Modules/Events/EventCellViewModel.swift:38-41 | a `create` event's badge is the repository, branch or tag badge according to the payload's ref type, and absent without a create payload |
| `EventCellProperties.CreateBadgeDependsOnlyOnRefType` | SwiftHub/Modules/Events/EventCellViewModel.swift:41 | two `create` events have the same badge exactly when their ref types are equal |
| `EventCellProperties.CreateText` | SwiftHub/Modules/Events/EventCellViewModel.swift:38-40 | every `create` event reads `created <refType> <ref> in`, using the ref type's raw value and `""` for a missing ref; without a create payload both are empty and the text is `created   in`, with three spaces |
| `EventCellProperties.ForkAndStarIgnorePayload` | SwiftHub/Modules/Events/EventCellViewModel.swift:34-74 | `fork` and `star` give `forked` and `starred` with the fork and star badges, whatever else the event holds |
| `EventCellProperties.WrongPayloadIsMissing` | SwiftHub/Modules/Events/EventCellViewModel.swift:39-69 | a payload of a kind other than the one the type casts to is treated exactly like no payload |
| `EventCellProperties.SameCellIffSameEvent` | SwiftHub/Modules/Events/EventCellViewModel.swift:89-93 | `SameCell` (the `==` on view models) holds for two presented cells exactly when their events are equal, whatever formatters built them; every cell has the same badge colour |
| `EventCellProperties.SameCellIsEquivalence` | SwiftHub/Modules/Events/EventCellViewModel.swift:89-93 | `SameCell` is reflexive, symmetric and transitive, as `Equatable` requires of `==` |
| `EventCellProperties.StarExample` | SwiftHub/Modules/Events/EventCellViewModel.swift:72-80 | alice starring org/repo gives the title `alice starred org/repo` |
| `EventCellProperties.PushExample` | SwiftHub/Modules/Events/EventCellViewModel.swift:64-80 | bob pushing `refs/heads/main` to o/r gives the title `bob pushed to refs/heads/main at o/r`, with single spaces |
| `EventCellProperties.CreateBranchExample` | SwiftHub/Modules/Events/EventCellViewModel.swift:38-41 | creating branch `feature-x` reads `created branch feature-x in` and has the branch badge |
| `EventCellProperties.IssueCommentExample` | SwiftHub/Modules/Events/EventCellViewModel.swift:42-46 | a comment `Looks good` on issue 42 gives the second detail `Looks good` and the text `commented on issue #42 at` |

## Left out

- The RxSwift `Driver.just` wrappers and the `userSelected` subject are reactive UI plumbing. The cell's fields are plain values in `EventCellViewModel`, and the subject is not modelled.
- `UIImage` resources (`R.image.*`) and their `.template` rendering are UIKit calls. Badges are the keys of `Badge`, and the template variant is taken to be the same key.
- `UIColor.flatGreenDark` is a UI resource. It is the single constant `FlatGreenDark`.
- `createdAt?.toRelative()` depends on the clock. The formatter is the parameter `toRelative` of `Present`.
- `avatarUrl?.url` is URL parsing in a library. The parser is the parameter `toUrl` of `Present`.
- The `Event`, payload and `CreateEventType` declarations are not part of this model. The raw values of `CreateEventType` are taken to be its case names (`repository`, `branch`, `tag`), as Swift does by default. Issue and pull-request numbers are taken to be `Int`, modelled as the 64-bit range `Int64`.
- The event types the switch does not list are all one constructor, `Other`, which keeps a name so that different unlisted types stay different events.
- `SameCell` compares events by value. The `==` of the `Event` type itself is not part of this model.
