/**
  Attachment formatting: `createAttachment` turns a list of violations into a
  titled, counted block of bullet lines; `createMarkdownAttachment` turns
  markdown comments into a titled block of verbatim lines.
 */
module Attachments {
  import opened SlackTypes
  import opened Text

  /**
    The bullet that starts every violation line. The source file carries the
    bullet character in a mis-decoded form. Apart from
    `Witnesses.FailsBlockExample`, which checks the `•` rendering, the proofs
    only use that the marker holds no line break.
   */
  const BulletMarker: string := "•"

  /** The fields Slack is told to render as markdown. */
  const MarkdownFields: seq<string> := ["text"]

  /** `${title} (${count})` */
  function TitleWithCount(title: string, count: nat): string
  {
    title + " (" + NatToString(count) + ")"
  }

  /** `• ${violation.message}` */
  function BulletLine(v: Violation): string
  {
    BulletMarker + " " + v.message
  }

  function BulletLines(violations: seq<Violation>): (lines: seq<string>)
    ensures |lines| == |violations|
    ensures forall i :: 0 <= i < |violations| ==> lines[i] == BulletLine(violations[i])
  {
    seq(|violations|, i requires 0 <= i < |violations| => BulletLine(violations[i]))
  }

  function CreateAttachment(title: string, color: string, violations: seq<Violation>): (a: Attachment)
    ensures a.color == color
    ensures a.title == a.fallback == title + " (" + NatToString(|violations|) + ")"
    ensures a.mrkdwnIn == Some(["text"])
    ensures |violations| == 0 ==> a.text == "" && a.title == title + " (0)"
    ensures |violations| == 1 ==> a.text == BulletMarker + " " + violations[0].message
  {
    var titleWithCount := TitleWithCount(title, |violations|);
    Attachment(color, titleWithCount, titleWithCount, Join(BulletLines(violations), "\n"), Some(MarkdownFields))
  }

  function CreateMarkdownAttachment(title: string, color: string, comments: seq<string>): (a: Attachment)
    ensures a.color == color
    ensures a.title == a.fallback == title
    ensures a.mrkdwnIn == Some(["text"])
    ensures |comments| == 0 ==> a.text == ""
    ensures |comments| == 1 ==> a.text == comments[0]
  {
    Attachment(color, title, title, Join(comments, "\n"), Some(MarkdownFields))
  }

  /**
    Reads the count back from a title of the form `title (digits)`;
    `None` when the text is not of that form.
   */
  function ParseTitleCount(s: string, title: string): Option<nat>
  {
    var p := title + " (";
    if |s| >= |p| + 2 && s[..|p|] == p && s[|s| - 1] == ')' && AllDigits(s[|p|..|s| - 1])
    then Some(ParseDigits(s[|p|..|s| - 1]))
    else None
  }

  /** The count in a violation block's title and fallback reads back as the number of violations. */
  lemma AttachmentCountRoundTrip(title: string, color: string, violations: seq<Violation>)
    ensures ParseTitleCount(CreateAttachment(title, color, violations).fallback, title) == Some(|violations|)
    ensures ParseTitleCount(CreateAttachment(title, color, violations).title, title) == Some(|violations|)
  {
    var p := title + " (";
    var digits := NatToString(|violations|);
    var s := TitleWithCount(title, |violations|);
    assert s == p + digits + ")";
    assert s[..|p|] == p;
    assert s[|p|..|s| - 1] == digits;
    ParseNatToString(|violations|);
  }

  /**
    For any messages, line breaks included: the text for two non-empty lists
    in a row is the first list's text, a line break, then the second's. With
    the one-violation case of `CreateAttachment`, this fixes the text of every
    list: the bullet lines in input order, joined by line breaks.
   */
  lemma AttachmentTextAppend(title: string, color: string, xs: seq<Violation>, ys: seq<Violation>)
    requires |xs| >= 1 && |ys| >= 1
    ensures CreateAttachment(title, color, xs + ys).text
         == CreateAttachment(title, color, xs).text + "\n" + CreateAttachment(title, color, ys).text
  {
    assert BulletLines(xs + ys) == BulletLines(xs) + BulletLines(ys);
    JoinAppend(BulletLines(xs), BulletLines(ys), "\n");
  }

  /**
    For any comments, line breaks included: the text for two non-empty lists
    in a row is the first list's text, a line break, then the second's. With
    the one-comment case of `CreateMarkdownAttachment`, this fixes the text of
    every list: the comments verbatim, in order, joined by line breaks.
   */
  lemma MarkdownTextAppend(title: string, color: string, xs: seq<string>, ys: seq<string>)
    requires |xs| >= 1 && |ys| >= 1
    ensures CreateMarkdownAttachment(title, color, xs + ys).text
         == CreateMarkdownAttachment(title, color, xs).text + "\n" + CreateMarkdownAttachment(title, color, ys).text
  {
    JoinAppend(xs, ys, "\n");
  }

  /** A comments block carries no count: its title does not read as `title (n)`. */
  lemma MarkdownTitleHasNoCount(title: string, color: string, comments: seq<string>)
    ensures ParseTitleCount(CreateMarkdownAttachment(title, color, comments).fallback, title) == None
  {
  }

  /**
    When no message holds a line break, the block's text has exactly one line
    per violation, in input order, each the bullet marker, a space and the message.
   */
  lemma {:induction false} AttachmentLines(title: string, color: string, violations: seq<Violation>)
    requires |violations| > 0
    requires forall i :: 0 <= i < |violations| ==> '\n' !in violations[i].message
    ensures var lines := Split(CreateAttachment(title, color, violations).text, '\n');
      && |lines| == |violations|
      && forall i :: 0 <= i < |violations| ==> lines[i] == BulletMarker + " " + violations[i].message
  {
    var lines := BulletLines(violations);
    forall i | 0 <= i < |lines|
      ensures '\n' !in lines[i]
    {
      assert lines[i] == BulletMarker + " " + violations[i].message;
    }
    SplitJoin(lines, '\n');
  }

  /**
    When no comment holds a line break, the comments block's text splits back
    into exactly the comments, unprefixed and in order.
   */
  lemma {:induction false} MarkdownLines(title: string, color: string, comments: seq<string>)
    requires |comments| > 0
    requires NoneContains(comments, '\n')
    ensures Split(CreateMarkdownAttachment(title, color, comments).text, '\n') == comments
  {
    SplitJoin(comments, '\n');
  }
}
