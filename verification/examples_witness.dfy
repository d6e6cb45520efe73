/**
  Concrete inputs, modelled on the repository's sample Danger results, and
  the payloads the model produces for them.
 */
module Witnesses {
  import opened SlackTypes
  import opened Attachments
  import opened PrDsl
  import opened Compose
  import opened Text

  const SamplePr: JoinedPr :=
    JoinedPr("u", NumericId(7), "B", "T", JoinedUser("l", "h"))

  const NoOptions: Options := Options("https://hooks.example.org/x", None, None, None, None, None, None)

  const EmptyResults: DangerResults := DangerResults([], [], [], [])

  const SummaryResults: DangerResults := DangerResults(
    [Violation("Failing message Failing message")],
    [Violation("Warning message Warning message")],
    [Violation("message")],
    [Violation("markdown")])

  lemma FailsBlockExample()
    ensures CreateAttachment("Fails", "danger", [Violation("Failing message")])
         == Attachment("danger", "Fails (1)", "Fails (1)", "• Failing message", Some(["text"]))
  {
  }

  lemma CommentsBlockExample()
    ensures CreateMarkdownAttachment("Comments", "#EEE", ["This is markdown"])
         == Attachment("#EEE", "Comments", "Comments", "This is markdown", Some(["text"]))
  {
  }

  lemma HeaderExample()
    ensures ReportText(SamplePr) == "<u|*PR#7* - T> by <h|l>\nB"
  {
    assert DigitChar(7) == '7';
  }

  lemma EmptyResultsExample()
    ensures var m := CreateMessage(SamplePr, EmptyResults, NoOptions);
      && m.text == ReportText(SamplePr) + "\nNo output to show."
      && m.attachments == []
      && m.iconEmoji == Some(":blush:")
      && m.username == Some("DangerJS")
  {
  }

  lemma SummaryResultsExample()
    ensures var m := CreateMessage(SamplePr, SummaryResults, NoOptions.(iconEmoji := Some(":tada:")));
      && m.iconEmoji == Some(":rage:")
      && |m.attachments| == 4
      && m.attachments[0].color == "danger"
      && m.attachments[1].color == "warning"
      && m.attachments[2].color == "#999"
      && m.attachments[3] == Attachment("#EEE", "Comments", "Comments", "markdown", Some(["text"]))
  {
  }

  lemma CustomTextExample()
    ensures var m := CreateMessage(SamplePr, SummaryResults, NoOptions.(text := Some("custom")));
      && m.text == "custom"
      && m.attachments == []
      && m.iconEmoji == Some(":open_mouth:")
  {
  }

  lemma BitbucketEmailExample()
    ensures var bb := BitbucketPr(3, "T", "D", BitbucketAuthor(BitbucketUser("ann", Some("a@b.com"))), BitbucketLinks([Link("https://bb/3")]));
      ConvertToSlackPrDsl(BitbucketShaped(bb), BitbucketServer).user.htmlUrl == "mailto: a@b.com"
    ensures var bb := BitbucketPr(3, "T", "D", BitbucketAuthor(BitbucketUser("ann", None)), BitbucketLinks([Link("https://bb/3")]));
      ConvertToSlackPrDsl(BitbucketShaped(bb), BitbucketServer).user.htmlUrl == ""
  {
  }
}
