/** The content helpers: `truncate_text` and `extract_text_from_content`. */
module ContentHelpers {
  import opened Wrappers
  import opened Seqs
  import opened Strings
  import opened Anthropic

  const TRUNCATION_MARKER := "...[truncated]"
  const DEFAULT_MAX_LENGTH: nat := 200

  /** Cut `text` to `maxLength` characters (200 unless given), marking the cut. */
  function TruncateText(text: string, maxLength: nat := DEFAULT_MAX_LENGTH): (r: string)
    ensures |text| <= maxLength ==> r == text
    ensures |text| > maxLength ==> |r| == maxLength + |TRUNCATION_MARKER|
    ensures |r| <= maxLength + |TRUNCATION_MARKER|
    ensures |text| > maxLength ==> text[..maxLength] <= r && r[maxLength..] == TRUNCATION_MARKER
  {
    if |text| <= maxLength then text else text[..maxLength] + TRUNCATION_MARKER
  }

  /** A list element that is a dictionary whose `type` is "text". */
  predicate IsTextItem(it: Item) {
    it.Dict? && it.block.kind == Some("text")
  }

  /** `block.get("text", "")`. */
  function ItemText(it: Item): string {
    if it.Dict? then it.block.text.GetOr("") else ""
  }

  /** The texts of the text blocks of a list, in list order. */
  function TextParts(items: seq<Item>): seq<string> {
    Map(Filter(items, IsTextItem), ItemText)
  }

  /** The text parts of a list prefix one element longer. */
  lemma TextPartsStep(items: seq<Item>, j: nat)
    requires j < |items|
    ensures IsTextItem(items[j]) ==> TextParts(items[..j + 1]) == TextParts(items[..j]) + [ItemText(items[j])]
    ensures !IsTextItem(items[j]) ==> TextParts(items[..j + 1]) == TextParts(items[..j])
  {
    MapFilterStep(items, IsTextItem, ItemText, j);
  }

  /** What `extract_text_from_content` returns for `content`. */
  function ExtractText(content: Content): string {
    match content
    case Text(s) => s
    case Blocks(items) => Join(TextParts(items), "\n")
    case Other(_) => ""
  }

  /** The loop of `extract_text_from_content` over a content list. */
  method ExtractTextFromContent(content: Content) returns (r: string)
    ensures r == ExtractText(content)
    ensures content.Text? ==> r == content.s
    ensures content.Other? ==> r == ""
  {
    if content.Text? {
      return content.s;
    }
    if content.Blocks? {
      var items := content.items;
      var parts: seq<string> := [];
      var i := 0;
      while i < |items|
        invariant 0 <= i <= |items|
        invariant parts == TextParts(items[..i])
      {
        var it := items[i];
        TextPartsStep(items, i);
        if it.Dict? && it.block.kind == Some("text") {
          parts := parts + [it.block.text.GetOr("")];
        }
        i := i + 1;
      }
      assert items[..i] == items;
      return Join(parts, "\n");
    }
    return "";
  }

  /** Part `k` is the text of a text block with `k` text blocks before it. */
  ghost predicate PartFromTextBlock(items: seq<Item>, k: nat)
    requires k < |TextParts(items)|
  {
    exists i :: 0 <= i < |items| && IsTextItem(items[i]) && Count(items[..i], IsTextItem) == k &&
                TextParts(items)[k] == items[i].block.text.GetOr("")
  }

  /**
   * The parts are exactly the texts of the text blocks, in order: there is one per text block,
   * the block at position i contributes the part numbered by the text blocks before it, and
   * every part comes from such a block.
   */
  lemma TextPartsExact(items: seq<Item>)
    ensures |TextParts(items)| == Count(items, IsTextItem)
    ensures forall i :: 0 <= i < |items| && IsTextItem(items[i]) ==>
              Count(items[..i], IsTextItem) < |TextParts(items)| &&
              TextParts(items)[Count(items[..i], IsTextItem)] == items[i].block.text.GetOr("")
    ensures forall k :: 0 <= k < |TextParts(items)| ==> PartFromTextBlock(items, k)
  {
    forall i | 0 <= i < |items| && IsTextItem(items[i])
      ensures Count(items[..i], IsTextItem) < |TextParts(items)|
      ensures TextParts(items)[Count(items[..i], IsTextItem)] == items[i].block.text.GetOr("")
    {
      FilterAt(items, IsTextItem, i);
    }
    forall k | 0 <= k < |TextParts(items)|
      ensures PartFromTextBlock(items, k)
    {
      FilterOrigin(items, IsTextItem, k);
      var i :| 0 <= i < |items| && IsTextItem(items[i]) && Count(items[..i], IsTextItem) == k &&
               Filter(items, IsTextItem)[k] == items[i];
      assert TextParts(items)[k] == ItemText(items[i]);
    }
  }

  /**
   * Splitting the extracted text at newlines gives back the text blocks' texts, when there is
   * at least one text block and none of them holds a newline.
   */
  lemma ExtractTextSplits(items: seq<Item>)
    requires Count(items, IsTextItem) > 0
    requires forall i :: 0 <= i < |items| && IsTextItem(items[i]) ==> '\n' !in items[i].block.text.GetOr("")
    ensures Split(ExtractText(Blocks(items)), '\n') == TextParts(items)
  {
    var parts := TextParts(items);
    TextPartsExact(items);
    forall k | 0 <= k < |parts| ensures '\n' !in parts[k] {
      assert PartFromTextBlock(items, k);
      var i :| 0 <= i < |items| && IsTextItem(items[i]) && Count(items[..i], IsTextItem) == k &&
               parts[k] == items[i].block.text.GetOr("");
    }
    SplitJoin(parts, '\n');
  }
}
