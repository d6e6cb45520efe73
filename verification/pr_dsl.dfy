/**
  Pull-request normalisation (`convertToSlackPRDSL`): a Bitbucket Server pull
  request is mapped onto the GitHub-like joined shape; a GitHub pull request
  already has that shape and passes through.
 */
module PrDsl {
  import opened SlackTypes

  /** What the author's profile link starts with when an e-mail address is known. */
  const MailtoPrefix: string := "mailto: "

  /**
    The supplied object has the shape its tag announces. The source casts
    without checking; a Bitbucket object without a first self link makes it
    throw, and a mismatched shape yields a descriptor whose fields are undefined.
   */
  predicate Fits(pr: HostPr, kind: PrDslType)
  {
    match kind
    case BitbucketServer => pr.BitbucketShaped? && |pr.bb.links.selfLinks| > 0
    case GitHub => pr.GitHubShaped?
  }

  /** The author's profile link: a mailto link for a non-empty address, else empty. */
  function ProfileUrl(email: Option<string>): (url: string)
    ensures url == "" <==> !Truthy(email)
    ensures Truthy(email) ==> |url| > |MailtoPrefix| && url[..|MailtoPrefix|] == MailtoPrefix && url[|MailtoPrefix|..] == email.value
  {
    if Truthy(email) then MailtoPrefix + email.value else ""
  }

  function ConvertToSlackPrDsl(pr: HostPr, kind: PrDslType): (r: JoinedPr)
    requires Fits(pr, kind)
    ensures kind == GitHub ==> r == pr.pr
    ensures kind == BitbucketServer ==>
      && r.htmlUrl == pr.bb.links.selfLinks[0].href
      && r.number == NumericId(pr.bb.id)
      && r.body == pr.bb.description
      && r.title == pr.bb.title
      && r.user.login == pr.bb.author.user.name
      && r.user.htmlUrl == ProfileUrl(pr.bb.author.user.emailAddress)
      && (r.user.htmlUrl == "" <==> !Truthy(pr.bb.author.user.emailAddress))
  {
    match kind
    case BitbucketServer =>
      var bb := pr.bb;
      JoinedPr(
        bb.links.selfLinks[0].href,
        NumericId(bb.id),
        bb.description,
        bb.title,
        JoinedUser(bb.author.user.name, ProfileUrl(bb.author.user.emailAddress)))
    case GitHub => pr.pr
  }

  /** The e-mail address a profile link was built from, if it is a mailto link. */
  function EmailFromProfileUrl(url: string): Option<string>
  {
    if |url| > |MailtoPrefix| && url[..|MailtoPrefix|] == MailtoPrefix
    then Some(url[|MailtoPrefix|..])
    else None
  }

  /** Reads a joined descriptor back as a Bitbucket pull request with one self link. */
  function BackToBitbucket(r: JoinedPr): Option<BitbucketPr>
  {
    match r.number
    case StringId(_) => None
    case NumericId(id) =>
      Some(BitbucketPr(
        id,
        r.title,
        r.body,
        BitbucketAuthor(BitbucketUser(r.user.login, EmailFromProfileUrl(r.user.htmlUrl))),
        BitbucketLinks([Link(r.htmlUrl)])))
  }

  /**
    What the conversion keeps of a Bitbucket pull request: everything but the
    self links after the first, and the difference between an absent and an
    empty e-mail address.
   */
  function Kept(bb: BitbucketPr): BitbucketPr
    requires |bb.links.selfLinks| > 0
  {
    var email := bb.author.user.emailAddress;
    bb.(author := BitbucketAuthor(bb.author.user.(emailAddress := if Truthy(email) then email else None)),
        links := BitbucketLinks([bb.links.selfLinks[0]]))
  }

  /** Converting a Bitbucket pull request loses nothing but what `Kept` drops. */
  lemma BitbucketRoundTrip(bb: BitbucketPr)
    requires |bb.links.selfLinks| > 0
    ensures BackToBitbucket(ConvertToSlackPrDsl(BitbucketShaped(bb), BitbucketServer)) == Some(Kept(bb))
  {
    var email := bb.author.user.emailAddress;
    var url := ProfileUrl(email);
    if Truthy(email) {
      assert |url| > |MailtoPrefix|;
      assert EmailFromProfileUrl(url) == email;
    } else {
      assert EmailFromProfileUrl(url) == None;
    }
  }
}
