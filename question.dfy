/** The question display component: the answer-edit callback, the image url rule,
    the preview cells and the option list of each answer select. */
module QuestionView {
  import opened Types

  /** The edit callback of the answer selects. The component always renders three
      selects (А, Б, В), so slot 2 can be edited on a two-slot answer; assigning
      one past the end of a JavaScript array appends, so the new tuple then has
      three slots. */
  method HandleAnswerChange(answer: Slots, index: nat, value: int) returns (newAnswer: Slots)
    requires index < 3
    ensures |newAnswer| == if index < |answer| then |answer| else index + 1
    ensures newAnswer[index] == value
    ensures forall k :: 0 <= k < |answer| && k != index ==> newAnswer[k] == answer[k]
  {
    var length := if index < |answer| then |answer| else index + 1;
    var copy := new int[length](k => if 0 <= k < |answer| then answer[k] else 0);
    copy[index] := value;
    newAnswer := copy[..];
  }

  /** The image source: nothing for a missing or empty reference, the reference
      itself when it already starts with the base path, else base path + reference. */
  function ImageUrl(url: Option<string>, base: string): (r: string)
    ensures url == None || url == Some("") ==> r == ""
    ensures url.Some? && url.value != "" ==>
      base <= r && (r == url.value || r == base + url.value)
    ensures url.Some? && url.value != "" && base <= url.value ==> r == url.value
    ensures url.Some? && url.value != "" && !(base <= url.value) ==> r == base + url.value
  {
    match url
    case None => ""
    case Some(u) =>
      if u == "" then ""
      else if base <= u then u
      else base + u
  }

  /** Resolving an already resolved url changes nothing. */
  lemma ImageUrlIdempotent(url: Option<string>, base: string)
    requires url.Some? && url.value != ""
    ensures ImageUrl(Some(ImageUrl(url, base)), base) == ImageUrl(url, base)
  {
  }

  /** What a table cell shows for an answer slot. */
  datatype Cell = Dash | Number(value: int)

  /** `answer[k] || '—'`: a zero slot and a slot the tuple does not have both show
      the em-dash; any other value shows itself. */
  function SlotCell(answer: seq<int>, k: nat): (c: Cell)
    ensures c == Dash <==> k >= |answer| || answer[k] == 0
    ensures c.Number? ==> k < |answer| && c.value == answer[k]
  {
    if k < |answer| && answer[k] != 0 then Number(answer[k]) else Dash
  }

  /** The live preview table always has the three columns А, Б, В. */
  function PreviewRow(answer: Slots): (row: seq<Cell>)
    ensures |row| == 3
    ensures forall k :: 0 <= k < 3 ==> (row[k] == Dash <==> k >= |answer| || answer[k] == 0)
    ensures forall k :: 0 <= k < |answer| && answer[k] != 0 ==> row[k] == Number(answer[k])
  {
    [SlotCell(answer, 0), SlotCell(answer, 1), SlotCell(answer, 2)]
  }

  /** The values offered by one answer select: 0 (the "choose an answer"
      placeholder) followed by every right-column item value, in order. */
  function SelectOptions(items: seq<MatchingOption>): (options: seq<int>)
    ensures |options| == 1 + |items|
    ensures options[0] == 0
    ensures forall i :: 0 <= i < |items| ==> options[i + 1] == items[i].value
    ensures forall v :: v in options <==> v == 0 || exists i :: 0 <= i < |items| && items[i].value == v
  {
    [0] + seq(|items|, i requires 0 <= i < |items| => items[i].value)
  }
}
