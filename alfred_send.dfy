/** The launcher's result envelope: a list of items, or a single error item. */
module AlfredSend {
  import opened Wrappers

  datatype Item = Item(title: string, subTitle: string)

  /** An item the launcher shows but does not let the user choose (`Valid` false). */
  datatype Error = Error(title: string, subTitle: string, valid: bool)

  /** An element of `Result.Items`, which holds values of either kind. */
  datatype Entry = PlainEntry(item: Item) | ErrorEntry(error: Error)

  datatype Result = Result(items: seq<Entry>)

  const ErrorTitle := "Something went wrong!"

  /** The items of a result made only of plain items; `None` as soon as one entry is an error. */
  function PlainItems(entries: seq<Entry>): Option<seq<Item>> {
    if entries == [] then Some([])
    else match (entries[0], PlainItems(entries[1..]))
      case (PlainEntry(item), Some(rest)) => Some([item] + rest)
      case _ => None
  }

  /** The message of a result that is exactly one error entry. */
  function ErrorMessage(r: Result): Option<string> {
    if |r.items| == 1 && r.items[0].ErrorEntry? then Some(r.items[0].error.subTitle) else None
  }

  lemma {:induction false} PlainItemsOfWrapped(items: seq<Item>, entries: seq<Entry>)
    requires |entries| == |items|
    requires forall i :: 0 <= i < |items| ==> entries[i] == PlainEntry(items[i])
    ensures PlainItems(entries) == Some(items)
  {
    if items != [] {
      PlainItemsOfWrapped(items[1..], entries[1..]);
      assert [items[0]] + items[1..] == items;
    }
  }

  /** The result `SendResult` sends: one plain entry per item, in order, and nothing else. */
  method SendResult(items: seq<Item>) returns (result: Result)
    ensures |result.items| == |items|
    ensures forall i :: 0 <= i < |items| ==> result.items[i] == PlainEntry(items[i])
    ensures PlainItems(result.items) == Some(items)
    ensures ErrorMessage(result) == None
  {
    var entries := new Entry[|items|];
    for i := 0 to |items|
      invariant forall k :: 0 <= k < i ==> entries[k] == PlainEntry(items[k])
    {
      entries[i] := PlainEntry(items[i]);
    }
    result := Result(entries[..]);
    PlainItemsOfWrapped(items, result.items);
  }

  /** The result `SendError` sends: one entry, an error item titled "Something went wrong!", carrying the message, not valid. */
  function SendError(message: string): (result: Result)
    ensures |result.items| == 1 && result.items[0].ErrorEntry?
    ensures result.items[0].error.title == ErrorTitle
    ensures result.items[0].error.subTitle == message
    ensures !result.items[0].error.valid
    ensures ErrorMessage(result) == Some(message)
    ensures PlainItems(result.items).None?
  {
    Result([ErrorEntry(Error(ErrorTitle, message, false))])
  }
}
