/**
  The record shapes the plugin works with: the plugin options, the Slack
  message and its attachments, the joined pull-request descriptor, Danger's
  review results, and the Bitbucket Server pull request it can be built from.
  An optional TypeScript property (`x?: string`) is an `Option`.
 */
module SlackTypes {

  datatype Option<+T> = None | Some(value: T)

  /**
    JavaScript truthiness of an optional string: `if (x)` and `x || d` treat
    an absent value and the empty string alike.
   */
  predicate Truthy(o: Option<string>)
  {
    o.Some? && o.value != ""
  }

  /** `o || fallback` */
  function OrElse(o: Option<string>, fallback: string): string
  {
    if Truthy(o) then o.value else fallback
  }

  /** A reported issue; only its message is read. */
  datatype Violation = Violation(message: string)

  /** Danger's results, each list in the order it was reported. */
  datatype DangerResults = DangerResults(
    fails: seq<Violation>,
    warnings: seq<Violation>,
    messages: seq<Violation>,
    markdowns: seq<Violation>)

  /** `SlackPRDSLType`: which host's pull-request shape is supplied. */
  datatype PrDslType = GitHub | BitbucketServer

  /** `SlackOptions`; `webhookUrl` is only used by the delivery step. */
  datatype Options = Options(
    webhookUrl: string,
    text: Option<string>,
    username: Option<string>,
    iconEmoji: Option<string>,
    iconUrl: Option<string>,
    channel: Option<string>,
    prdsl: Option<PrDslType>)

  /** `SlackAttachment`; `mrkdwnIn` is the `mrkdwn_in` property. */
  datatype Attachment = Attachment(
    color: string,
    fallback: string,
    title: string,
    text: string,
    mrkdwnIn: Option<seq<string>>)

  /** `SlackMessage` */
  datatype Message = Message(
    text: string,
    username: Option<string>,
    iconEmoji: Option<string>,
    iconUrl: Option<string>,
    channel: Option<string>,
    attachments: seq<Attachment>)

  /** `number: string | number` of the joined descriptor. */
  datatype PrNumber = NumericId(n: nat) | StringId(s: string)

  /** `SlackJoinedPRDSLUser`: `htmlUrl` is the `html_url` property. */
  datatype JoinedUser = JoinedUser(login: string, htmlUrl: string)

  /**
    `SlackJoinedPRDSL`, together with the `html_url` property that the
    composer reads from the GitHub-shaped object through a cast.
   */
  datatype JoinedPr = JoinedPr(
    htmlUrl: string,
    number: PrNumber,
    body: string,
    title: string,
    user: JoinedUser)

  /** The parts of Bitbucket Server's pull request that the conversion reads. */
  datatype BitbucketUser = BitbucketUser(name: string, emailAddress: Option<string>)
  datatype BitbucketAuthor = BitbucketAuthor(user: BitbucketUser)
  datatype Link = Link(href: string)
  datatype BitbucketLinks = BitbucketLinks(selfLinks: seq<Link>)
  datatype BitbucketPr = BitbucketPr(
    id: nat,
    title: string,
    description: string,
    author: BitbucketAuthor,
    links: BitbucketLinks)

  /** The pull request Danger supplies, in the shape of its host. */
  datatype HostPr = GitHubShaped(pr: JoinedPr) | BitbucketShaped(bb: BitbucketPr)
}
