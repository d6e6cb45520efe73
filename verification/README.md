# danger-plugin-slack message composition, in Dafny

This project models the pure core of `danger-plugin-slack`, a Danger plugin.
The plugin turns the results of a Danger review run into a Slack
incoming-webhook message. The run's results are failures, warnings,
informational messages and markdown comments. The model covers:

- **Pull-request normalisation** (`PrDsl.ConvertToSlackPrDsl`). A Bitbucket
  Server pull request is mapped onto the GitHub-like "joined" shape. The
  author's profile link becomes `mailto: <address>`, or the empty string when
  there is no address. A GitHub pull request passes through unchanged.
- **Severity emoji** (`Severity.GetDynamicEmoji`). The first matching rule
  wins: `:rage:` if there is any failure, `:neutral_face:` if there is any
  warning, and `:blush:` otherwise.
- **Attachment formatting** (`Attachments`). `CreateAttachment` builds a block
  titled `Title (count)` whose text has one bullet line per violation.
  `CreateMarkdownAttachment` builds a block with the plain title whose text is
  the comments joined by line breaks, verbatim.
- **Message composition** (`Compose.CreateMessage`). It applies the defaults
  for the user name and icon, and copies the icon URL and the channel when
  they are set. Then one of two branches runs:
  - With custom text, the message is that text and nothing else.
  - Otherwise the message is the report: a header that links the pull request
    and its author, the pull request's body, and the severity emoji. If there
    is no failure, warning or message, the report ends in
    `No output to show.`. If there is at least one, the report carries one
    attachment per non-empty list, in the fixed order failures, warnings,
    messages, comments.

Optional option fields follow JavaScript truthiness: an empty string counts as
absent (`SlackTypes.Truthy`).

`Text` holds the string helpers: `Array.prototype.join` (`Join`), splitting on
one character (`Split`, its inverse), and the decimal form of a number
(`NatToString`, whose inverse is `ParseDigits`). `Witnesses` works through the
repository's sample results as concrete inputs.

The code behaves as follows:

- In the report branch the severity emoji always overwrites the icon emoji
  option (src/index.ts:127).
- Custom text replaces the report entirely (src/index.ts:112-113).
- Markdown comments on their own still produce `No output to show.`, and
  they are then dropped (src/index.ts:131-132).
- The webhook URL is handed to the Slack client unchecked (src/index.ts:80).
- A pull request is cast to its announced shape without any check
  (src/index.ts:58-72).

## Model

| member | source | states |
|---|---|---|
| `PrDsl.ConvertToSlackPrDsl` | src/index.ts:57-74 | A Bitbucket Server pull request maps `links.self[0].href` to the URL, `id` to the number, `description` to the body and `title` to the title. It maps `author.user.name` to the login. The profile link is `ProfileUrl` of the e-mail address, so it is empty exactly when the address is absent or empty, and `mailto: ` followed by the address otherwise. Any GitHub pull request is returned unchanged. |
| `PrDsl.ProfileUrl` | src/index.ts:66-68 | The profile link is empty if and only if the address is absent or empty. Otherwise it is `mailto: ` followed by the address. |
| `PrDsl.BitbucketRoundTrip` | src/index.ts:58-70 | Reading the joined descriptor back gives the original Bitbucket pull request, up to two losses. Self links after the first are dropped. An absent address and an empty address become the same. |
| `Severity.GetDynamicEmoji` | src/index.ts:163-175 | The result is `:rage:` if and only if there is a failure. It is `:neutral_face:` if and only if there is a warning but no failure, and `:blush:` if and only if both lists are empty. It is defined for every input. |
| `Severity.MoreItemsNeverMilder` | src/index.ts:168-174 | Appending failures or warnings never lowers the severity level. |
| `Severity.DependsOnlyOnEmptiness` | src/index.ts:168-174 | Only whether each list is empty decides the emoji. |
| `Text.NatToString` | src/index.ts:178 | The count rendered in a title is one or more decimal digits, with no leading zero. |
| `Text.ParseNatToString` | src/index.ts:178 | Reading the rendered count back gives the count, so the rendering is injective. |
| `Text.NatToStringInjective` | src/index.ts:178 | Two counts with the same rendering are equal, so distinct counts give distinct titles. |
| `Text.JoinEnds` | src/index.ts:179 | `Array.prototype.join` of at least one part has the first part as a prefix and the last part as a suffix. |
| `Text.JoinAppend` | src/index.ts:195 | Joining two non-empty lists gives the first join, one separator, then the second join. |
| `Text.SplitJoin` | src/index.ts:195 | Splitting the line-break join of a non-empty list recovers the parts, provided no part contains a line break. The empty list joins to `""`, which splits into one empty piece. |
| `Text.JoinSplit` | src/index.ts:179 | Joining the pieces of a split on a character recovers the string. |
| `Attachments.BulletLines` | src/index.ts:179 | There is one line per violation, in input order. Each line is the bullet marker, a space, and the message. |
| `Attachments.CreateAttachment` | src/index.ts:177-188 | The colour is passed through. Title and fallback are equal and read `title (count)`. `mrkdwn_in` is `["text"]`. An empty list gives `title (0)` and empty text. One violation gives the bullet marker, a space and its message. |
| `Attachments.AttachmentCountRoundTrip` | src/index.ts:178-184 | Parsing the count out of the fallback, or out of the title, gives the number of violations, for every list length. |
| `Attachments.AttachmentTextAppend` | src/index.ts:179 | For any messages, line breaks included, the text for two non-empty lists in a row is the first list's text, a line break, then the second's. With the one-violation case of `CreateAttachment`, this fixes every text: the bullet lines in input order, joined by line breaks. |
| `Attachments.AttachmentLines` | src/index.ts:179 | For a non-empty list whose messages contain no line break, the text splits into exactly one bullet line per violation, in order. |
| `Attachments.CreateMarkdownAttachment` | src/index.ts:190-198 | The colour is passed through. Title and fallback are both the input title, with no count. `mrkdwn_in` is `["text"]`. No comments give empty text, and one comment gives that comment verbatim. |
| `Attachments.MarkdownTextAppend` | src/index.ts:195 | For any comments, line breaks included, the text for two non-empty lists in a row is the first list's text, a line break, then the second's. With the one-comment case, this fixes every text: the comments verbatim, in order, joined by line breaks. |
| `Attachments.MarkdownTitleHasNoCount` | src/index.ts:192-194 | A comments block's fallback never parses as a counted title. |
| `Attachments.MarkdownLines` | src/index.ts:195 | For a non-empty list whose comments contain no line break, the text splits back into exactly the comments, unprefixed and in order. |
| `Compose.MarkdownMessages` | src/index.ts:151-153 | The comments are the markdown results' messages, one each, in order. |
| `Compose.CreateMessage` | src/index.ts:93-161 | The user name is the option if it is non-empty, else `DangerJS`. The icon URL and the channel are set only when non-empty, and are then copied unchanged. With custom text, the message text is exactly that text, there are no attachments, and the icon is the option or `:open_mouth:`. Otherwise the text starts with the header and body. The icon is the severity emoji. If there are no failures, warnings or messages, the text ends in `No output to show.` and there are no attachments. Otherwise there are between 1 and 4 attachments. |
| `Compose.PresentFrom` | src/index.ts:134-146 | The non-empty categories, listed in the fixed display order: failures, warnings, messages, comments. Only non-empty categories are listed, with strictly increasing indices, so there are at most four. |
| `Compose.PresentFromComplete` | src/index.ts:134-146 | A category is listed if and only if it is non-empty. |
| `Compose.ReportAttachmentsByCategory` | src/index.ts:133-157 | The source's four conditional pushes produce exactly the blocks of the listed categories, in order. |
| `Compose.ReportBlocksInOrder` | src/index.ts:131-157 | In a composed report that has something to show, every attachment is the block of a non-empty category. The attachments' categories strictly increase in the order failures, warnings, messages, comments. A category has a block in the message if and only if it is non-empty. |
| `Compose.ReportCountsReadBack` | src/index.ts:134-156 | In a composed report, each failure, warning or message block's fallback reads back as its list's length. The comments block's fallback is `Comments`, with no count. |
| `Compose.CategoryCountReadsBack` | src/index.ts:134-156 | The failure, warning and message blocks' fallbacks read back as their lists' lengths. The comments block's fallback is `Comments`, with no count. |
| `Compose.CustomTextIgnoresReport` | src/index.ts:111-113 | With custom text, the message does not depend on the pull request or the results. |
| `Compose.ReportIgnoresIconEmojiOption` | src/index.ts:127 | In the report branch, the message does not depend on the icon emoji option. |
| `Compose.MarkdownsAloneAreDropped` | src/index.ts:131-132 | With no failures, warnings or messages, the report ends in `No output to show.` and has no attachments. It equals the message for an empty markdown list. |
| `Compose.EmptyOptionIsAbsent` | src/index.ts:96-112 | An option set to the empty string gives the same message as an absent option. |
| `Witnesses.FailsBlockExample` | src/index.ts:177-188 | One failure `Failing message` gives the block `Fails (1)` with text `• Failing message`. |
| `Witnesses.SummaryResultsExample` | src/ExampleDangerResults.ts:31-36 | The sample with one item in every category gives `:rage:` despite an icon option. It gives four blocks: danger, warning, `#999`, `#EEE`. Its markdown entry is a violation with the message `markdown`, where the sample has a plain string. |
| `Witnesses.BitbucketEmailExample` | src/index.ts:66-68 | The address `a@b.com` gives `mailto: a@b.com`. No address gives the empty string. |

## Left out

- `slack()` (src/index.ts:79-91) is not modelled. It reads Danger's ambient `danger` and `results` globals, defaults `prdsl` to `github` in place, and sends the message through the Slack webhook client. The network call and the global state are outside the model.
- The webhook URL is carried in `Options` but never read, because only the delivery step uses it.
- `PrDsl.ConvertToSlackPrDsl` requires the object to have the shape its tag announces, and a Bitbucket pull request to have a first self link. The source casts without checking, so a violation makes it throw or return undefined fields. JavaScript's `TypeError` is not modelled.
- A violation whose `message` is missing, such as the sample with empty failure objects, would render as `undefined` in JavaScript. That case is not modelled: every violation has a message string.
- A Bitbucket pull request without a description is not modelled either. It would render as `undefined` in the body.
- `Attachments.BulletMarker` is fixed to the bullet character U+2022. In the source file the marker appears mis-decoded. Apart from `Witnesses.FailsBlockExample`, which checks the `•` rendering, the proofs only rely on the marker containing no line break.
- A numeric pull-request number is a natural number rendered in plain decimal. Negative or fractional JavaScript numbers are not modelled. Numbers of 10^21 and above, which JavaScript writes in exponent form, are not modelled either. Nor are integers above 2^53, which JavaScript cannot hold exactly.
- `DangerResults.markdowns` is modelled as a list of violations, because src/index.ts:151-153 reads `.message` from each entry. The repository's sample results put plain strings there (src/ExampleDangerResults.ts:35). Such an entry has no `message`, so JavaScript would give an empty comments text. `Witnesses.SummaryResultsExample` uses a violation with the message `markdown` in its place.
- The foreign types from `@slack/client` and `danger` are not modelled. Only the fields the core reads are kept.
- src/index.test.ts is not used as a source of properties. It tests behaviour the code does not have.
- src/DangerPluginSlack.d.ts is not used. It is an outdated type declaration with no behaviour.
