/**
  Message composition (`createMessage`): applies the option defaults and
  overrides, then either sends the custom text alone or builds the report —
  a header line naming the pull request and its author, the pull request's
  body, the severity emoji, and one attachment per non-empty result list.
 */
module Compose {
  import opened SlackTypes
  import opened Text
  import opened Severity
  import opened Attachments

  const DefaultUsername: string := "DangerJS"
  const DefaultIconEmoji: string := ":open_mouth:"
  const NoOutputLine: string := "\nNo output to show."

  /** `${pr.number}`: a number in decimal, a string as it is. */
  function RenderNumber(n: PrNumber): string
  {
    match n
    case NumericId(k) => NatToString(k)
    case StringId(s) => s
  }

  /** `<html_url|*PR#number* - title>`: a Slack link to the pull request. */
  function PrInfo(pr: JoinedPr): string
  {
    "<" + pr.htmlUrl + "|*PR#" + RenderNumber(pr.number) + "* - " + pr.title + ">"
  }

  /** `<user.html_url|user.login>`: a Slack link to the author. */
  function PrAuthor(pr: JoinedPr): string
  {
    "<" + pr.user.htmlUrl + "|" + pr.user.login + ">"
  }

  /** The report's text before any "no output" note: header line, then the body. */
  function ReportText(pr: JoinedPr): string
  {
    PrInfo(pr) + " by " + PrAuthor(pr) + "\n" + pr.body
  }

  /** No failure, warning or message was reported (markdowns are not consulted). */
  predicate NothingToShow(r: DangerResults)
  {
    |r.fails| == 0 && |r.warnings| == 0 && |r.messages| == 0
  }

  /** `markdowns.map(result => result.message)` */
  function MarkdownMessages(markdowns: seq<Violation>): (comments: seq<string>)
    ensures |comments| == |markdowns|
    ensures forall i :: 0 <= i < |markdowns| ==> comments[i] == markdowns[i].message
  {
    seq(|markdowns|, i requires 0 <= i < |markdowns| => markdowns[i].message)
  }

  /** The attachments pushed, in the order the source pushes them. */
  function ReportAttachments(r: DangerResults): seq<Attachment>
  {
    var afterFails :=
      if |r.fails| > 0 then [CreateAttachment("Fails", "danger", r.fails)] else [];
    var afterWarnings :=
      if |r.warnings| > 0 then afterFails + [CreateAttachment("Warnings", "warning", r.warnings)] else afterFails;
    var afterMessages :=
      if |r.messages| > 0 then afterWarnings + [CreateAttachment("Messages", "#999", r.messages)] else afterWarnings;
    if |r.markdowns| > 0
    then afterMessages + [CreateMarkdownAttachment("Comments", "#EEE", MarkdownMessages(r.markdowns))]
    else afterMessages
  }

  function CreateMessage(pr: JoinedPr, results: DangerResults, options: Options): (m: Message)
    // in both branches
    ensures m.username == Some(if Truthy(options.username) then options.username.value else "DangerJS")
    ensures m.iconUrl == (if Truthy(options.iconUrl) then options.iconUrl else None)
    ensures m.channel == (if Truthy(options.channel) then options.channel else None)
    // custom text replaces the report
    ensures Truthy(options.text) ==>
      && m.text == options.text.value
      && m.attachments == []
      && m.iconEmoji == Some(if Truthy(options.iconEmoji) then options.iconEmoji.value else ":open_mouth:")
    // the report
    ensures !Truthy(options.text) ==>
      && |ReportText(pr)| <= |m.text|
      && m.text[..|ReportText(pr)|] == ReportText(pr)
      && m.iconEmoji == Some(GetDynamicEmoji(results.fails, results.warnings))
    ensures !Truthy(options.text) && NothingToShow(results) ==>
      && m.text == ReportText(pr) + "\nNo output to show."
      && m.attachments == []
    ensures !Truthy(options.text) && !NothingToShow(results) ==>
      && m.text == ReportText(pr)
      && 1 <= |m.attachments| <= 4
  {
    var initial := Message(
      "",
      Some(OrElse(options.username, DefaultUsername)),
      Some(OrElse(options.iconEmoji, DefaultIconEmoji)),
      None,
      None,
      []);
    var withIconUrl := if Truthy(options.iconUrl) then initial.(iconUrl := options.iconUrl) else initial;
    var withChannel := if Truthy(options.channel) then withIconUrl.(channel := options.channel) else withIconUrl;
    if Truthy(options.text) then
      withChannel.(text := options.text.value)
    else
      var report := withChannel.(
        iconEmoji := Some(GetDynamicEmoji(results.fails, results.warnings)),
        text := ReportText(pr));
      if NothingToShow(results) then
        report.(text := report.text + NoOutputLine)
      else
        report.(attachments := ReportAttachments(results))
  }

  // ---------------------------------------------------------------------------
  // An independent description of the attachment list: four categories in a
  // fixed display order, each shown by one block exactly when it is non-empty.
  // ---------------------------------------------------------------------------

  const CategoryCount: nat := 4

  /** The items of category `k`: 0 fails, 1 warnings, 2 messages, 3 markdowns. */
  function CategoryItems(r: DangerResults, k: nat): seq<Violation>
    requires k < CategoryCount
  {
    [r.fails, r.warnings, r.messages, r.markdowns][k]
  }

  /** The block that shows category `k`. */
  function CategoryBlock(r: DangerResults, k: nat): Attachment
    requires k < CategoryCount
  {
    if k == 0 then CreateAttachment("Fails", "danger", r.fails)
    else if k == 1 then CreateAttachment("Warnings", "warning", r.warnings)
    else if k == 2 then CreateAttachment("Messages", "#999", r.messages)
    else CreateMarkdownAttachment("Comments", "#EEE", MarkdownMessages(r.markdowns))
  }

  /** The title every block of category `k` starts from. */
  function CategoryTitle(k: nat): string
    requires k < CategoryCount
  {
    ["Fails", "Warnings", "Messages", "Comments"][k]
  }

  /** A block's category, told apart by its colour. */
  function Rank(a: Attachment): (k: nat)
    ensures k < CategoryCount
  {
    if a.color == "danger" then 0
    else if a.color == "warning" then 1
    else if a.color == "#999" then 2
    else 3
  }

  /**
    The non-empty categories from `k` on, in display order: each of them
    exactly once, and nothing else.
   */
  function PresentFrom(r: DangerResults, k: nat): (ks: seq<nat>)
    requires k <= CategoryCount
    decreases CategoryCount - k
    ensures |ks| <= CategoryCount - k
    ensures forall i :: 0 <= i < |ks| ==> k <= ks[i] < CategoryCount && |CategoryItems(r, ks[i])| > 0
    ensures forall i, j :: 0 <= i < j < |ks| ==> ks[i] < ks[j]
  {
    if k == CategoryCount then [] else IndexIfPresent(r, k) + PresentFrom(r, k + 1)
  }

  /** Category `k` when it is non-empty, as a list of at most one. */
  function IndexIfPresent(r: DangerResults, k: nat): seq<nat>
    requires k < CategoryCount
  {
    if |CategoryItems(r, k)| > 0 then [k] else []
  }

  /** The block of category `k` when it is non-empty, as a list of at most one. */
  function BlockIfPresent(r: DangerResults, k: nat): seq<Attachment>
    requires k < CategoryCount
  {
    if |CategoryItems(r, k)| > 0 then [CategoryBlock(r, k)] else []
  }

  /** The blocks of the listed categories, in the listed order. */
  function Blocks(r: DangerResults, ks: seq<nat>): (bs: seq<Attachment>)
    requires forall i :: 0 <= i < |ks| ==> ks[i] < CategoryCount
    ensures |bs| == |ks|
    ensures forall i :: 0 <= i < |ks| ==> bs[i] == CategoryBlock(r, ks[i])
  {
    if |ks| == 0 then [] else [CategoryBlock(r, ks[0])] + Blocks(r, ks[1..])
  }

  /** Each category's block is recognised as that category. */
  lemma RankOfCategoryBlock(r: DangerResults, k: nat)
    requires k < CategoryCount
    ensures Rank(CategoryBlock(r, k)) == k
  {
  }

  /** From `k` on, a category is listed exactly when it is non-empty. */
  lemma {:induction false} PresentFromComplete(r: DangerResults, k: nat, c: nat)
    requires k <= c < CategoryCount
    decreases CategoryCount - k
    ensures c in PresentFrom(r, k) <==> |CategoryItems(r, c)| > 0
  {
    assert PresentFrom(r, k) == IndexIfPresent(r, k) + PresentFrom(r, k + 1);
    if c > k {
      PresentFromComplete(r, k + 1, c);
    }
  }

  /** The non-empty categories, spelled out one by one. */
  lemma PresentCategories(r: DangerResults)
    ensures PresentFrom(r, 0)
         == IndexIfPresent(r, 0) + (IndexIfPresent(r, 1) + (IndexIfPresent(r, 2) + IndexIfPresent(r, 3)))
  {
    assert PresentFrom(r, 4) == [];
    assert IndexIfPresent(r, 3) + [] == IndexIfPresent(r, 3);
  }

  /** Listing category `k` in front, when it is non-empty, adds its block in front. */
  lemma BlocksStep(r: DangerResults, k: nat, rest: seq<nat>)
    requires k < CategoryCount
    requires forall i :: 0 <= i < |rest| ==> rest[i] < CategoryCount
    ensures Blocks(r, IndexIfPresent(r, k) + rest) == BlockIfPresent(r, k) + Blocks(r, rest)
  {
    if |CategoryItems(r, k)| > 0 {
      assert ([k] + rest)[1..] == rest;
    } else {
      assert [] + rest == rest;
    }
  }

  /** The blocks of the non-empty categories, spelled out one by one. */
  lemma PresentBlocks(r: DangerResults)
    ensures Blocks(r, PresentFrom(r, 0))
         == BlockIfPresent(r, 0) + (BlockIfPresent(r, 1) + (BlockIfPresent(r, 2) + BlockIfPresent(r, 3)))
  {
    PresentCategories(r);
    var p3 := IndexIfPresent(r, 3);
    var p2 := IndexIfPresent(r, 2) + p3;
    var p1 := IndexIfPresent(r, 1) + p2;
    assert p3 == p3 + [];
    BlocksStep(r, 3, []);
    BlocksStep(r, 2, p3);
    BlocksStep(r, 1, p2);
    BlocksStep(r, 0, p1);
    assert Blocks(r, []) == [];
    assert BlockIfPresent(r, 3) + [] == BlockIfPresent(r, 3);
  }

  /** The source's four conditional pushes, spelled out one by one. */
  lemma PushedBlocks(r: DangerResults)
    ensures ReportAttachments(r)
         == BlockIfPresent(r, 0) + (BlockIfPresent(r, 1) + (BlockIfPresent(r, 2) + BlockIfPresent(r, 3)))
  {
    var afterFails := if |r.fails| > 0 then [CreateAttachment("Fails", "danger", r.fails)] else [];
    assert afterFails == BlockIfPresent(r, 0);
    PushIsAppend(afterFails, |r.warnings| > 0, CategoryBlock(r, 1));
    var afterWarnings := afterFails + BlockIfPresent(r, 1);
    PushIsAppend(afterWarnings, |r.messages| > 0, CategoryBlock(r, 2));
    var afterMessages := afterWarnings + BlockIfPresent(r, 2);
    PushIsAppend(afterMessages, |r.markdowns| > 0, CategoryBlock(r, 3));
    assert ReportAttachments(r) == afterMessages + BlockIfPresent(r, 3);
    Reassociate(BlockIfPresent(r, 0), BlockIfPresent(r, 1), BlockIfPresent(r, 2), BlockIfPresent(r, 3));
  }

  /** The source's sequence of pushes builds the blocks of the non-empty categories in display order. */
  lemma ReportAttachmentsByCategory(r: DangerResults)
    ensures ReportAttachments(r) == Blocks(r, PresentFrom(r, 0))
  {
    PresentBlocks(r);
    PushedBlocks(r);
  }

  /** A conditional push appends a conditional singleton. */
  lemma PushIsAppend<T>(s: seq<T>, push: bool, x: T)
    ensures (if push then s + [x] else s) == s + (if push then [x] else [])
  {
    if !push {
      assert s + [] == s;
    }
  }

  lemma Reassociate<T>(a: seq<T>, b: seq<T>, c: seq<T>, d: seq<T>)
    ensures ((a + b) + c) + d == a + (b + (c + d))
  {
  }

  // ---------------------------------------------------------------------------
  // Properties of the composed message.
  // ---------------------------------------------------------------------------

  /** Custom text replaces the report: the pull request and the results are not read at all. */
  lemma CustomTextIgnoresReport(pr: JoinedPr, pr': JoinedPr, results: DangerResults, results': DangerResults, options: Options)
    requires Truthy(options.text)
    ensures CreateMessage(pr, results, options) == CreateMessage(pr', results', options)
  {
  }

  /** In the report, the severity emoji replaces the icon emoji option, whatever it was. */
  lemma ReportIgnoresIconEmojiOption(pr: JoinedPr, results: DangerResults, options: Options, iconEmoji: Option<string>)
    requires !Truthy(options.text)
    ensures CreateMessage(pr, results, options) == CreateMessage(pr, results, options.(iconEmoji := iconEmoji))
  {
  }

  /**
    Markdown comments alone do not make a report: with no failure, warning or
    message the text ends in the "no output" note, there are no attachments,
    and the message is the one an empty markdown list would give.
   */
  lemma MarkdownsAloneAreDropped(pr: JoinedPr, results: DangerResults, options: Options)
    requires !Truthy(options.text)
    requires NothingToShow(results)
    ensures var m := CreateMessage(pr, results, options);
      && m.attachments == []
      && |m.text| >= |NoOutputLine|
      && m.text[|m.text| - |NoOutputLine|..] == "\nNo output to show."
      && m == CreateMessage(pr, results.(markdowns := []), options)
  {
    var m := CreateMessage(pr, results, options);
    assert m.text == ReportText(pr) + NoOutputLine;
    assert m.text[|m.text| - |NoOutputLine|..] == NoOutputLine;
  }

  /** An option set to the empty string behaves exactly as an absent one. */
  function WithoutEmptyStrings(options: Options): Options
  {
    options.(
      text := if Truthy(options.text) then options.text else None,
      username := if Truthy(options.username) then options.username else None,
      iconEmoji := if Truthy(options.iconEmoji) then options.iconEmoji else None,
      iconUrl := if Truthy(options.iconUrl) then options.iconUrl else None,
      channel := if Truthy(options.channel) then options.channel else None)
  }

  lemma EmptyOptionIsAbsent(pr: JoinedPr, results: DangerResults, options: Options)
    ensures CreateMessage(pr, results, options) == CreateMessage(pr, results, WithoutEmptyStrings(options))
  {
  }

  /**
    With at least one failure, warning or message, the report carries exactly
    the blocks of the non-empty categories, one each, in display order
    (failures, warnings, messages, comments).
   */
  lemma ReportBlocksInOrder(pr: JoinedPr, results: DangerResults, options: Options)
    requires !Truthy(options.text)
    requires !NothingToShow(results)
    ensures var atts := CreateMessage(pr, results, options).attachments;
      && (forall i :: 0 <= i < |atts| ==> atts[i] == CategoryBlock(results, Rank(atts[i])) && |CategoryItems(results, Rank(atts[i]))| > 0)
      && (forall i, j :: 0 <= i < j < |atts| ==> Rank(atts[i]) < Rank(atts[j]))
      && (forall k :: 0 <= k < CategoryCount ==> (|CategoryItems(results, k)| > 0 <==> CategoryBlock(results, k) in atts))
  {
    var atts := CreateMessage(pr, results, options).attachments;
    var ks := PresentFrom(results, 0);
    ReportAttachmentsByCategory(results);
    forall i | 0 <= i < |atts|
      ensures Rank(atts[i]) == ks[i]
    {
      RankOfCategoryBlock(results, ks[i]);
    }
    forall k | 0 <= k < CategoryCount
      ensures |CategoryItems(results, k)| > 0 <==> CategoryBlock(results, k) in atts
    {
      RankOfCategoryBlock(results, k);
      PresentFromComplete(results, 0, k);
      if |CategoryItems(results, k)| > 0 {
        var i :| 0 <= i < |ks| && ks[i] == k;
        assert atts[i] == CategoryBlock(results, k);
      }
    }
  }

  /** The block of one category reads back its count, or none for the comments. */
  lemma CategoryCountReadsBack(results: DangerResults, k: nat)
    requires k < CategoryCount
    ensures var a := CategoryBlock(results, k);
      if k < 3
      then ParseTitleCount(a.fallback, CategoryTitle(k)) == Some(|CategoryItems(results, k)|)
      else ParseTitleCount(a.fallback, "Comments") == None && a.fallback == "Comments"
  {
    if k == 0 {
      assert CategoryBlock(results, k) == CreateAttachment("Fails", "danger", results.fails);
      assert CategoryTitle(k) == "Fails" && CategoryItems(results, k) == results.fails;
      AttachmentCountRoundTrip("Fails", "danger", results.fails);
    } else if k == 1 {
      assert CategoryBlock(results, k) == CreateAttachment("Warnings", "warning", results.warnings);
      assert CategoryTitle(k) == "Warnings" && CategoryItems(results, k) == results.warnings;
      AttachmentCountRoundTrip("Warnings", "warning", results.warnings);
    } else if k == 2 {
      assert CategoryBlock(results, k) == CreateAttachment("Messages", "#999", results.messages);
      assert CategoryTitle(k) == "Messages" && CategoryItems(results, k) == results.messages;
      AttachmentCountRoundTrip("Messages", "#999", results.messages);
    } else {
      assert CategoryBlock(results, k) == CreateMarkdownAttachment("Comments", "#EEE", MarkdownMessages(results.markdowns));
      MarkdownTitleHasNoCount("Comments", "#EEE", MarkdownMessages(results.markdowns));
    }
  }

  /**
    Every failure, warning or message block of a report states its list's
    length in its fallback, and the comments block states no count.
   */
  lemma ReportCountsReadBack(pr: JoinedPr, results: DangerResults, options: Options)
    requires !Truthy(options.text)
    ensures var atts := CreateMessage(pr, results, options).attachments;
      forall i :: 0 <= i < |atts| ==>
        if Rank(atts[i]) < 3
        then ParseTitleCount(atts[i].fallback, CategoryTitle(Rank(atts[i]))) == Some(|CategoryItems(results, Rank(atts[i]))|)
        else ParseTitleCount(atts[i].fallback, "Comments") == None && atts[i].fallback == "Comments"
  {
    var atts := CreateMessage(pr, results, options).attachments;
    if !NothingToShow(results) {
      ReportBlocksInOrder(pr, results, options);
      forall i | 0 <= i < |atts|
        ensures if Rank(atts[i]) < 3
          then ParseTitleCount(atts[i].fallback, CategoryTitle(Rank(atts[i]))) == Some(|CategoryItems(results, Rank(atts[i]))|)
          else ParseTitleCount(atts[i].fallback, "Comments") == None && atts[i].fallback == "Comments"
      {
        var k := Rank(atts[i]);
        assert atts[i] == CategoryBlock(results, k);
        CategoryCountReadsBack(results, k);
      }
    }
  }
}
