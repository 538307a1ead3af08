/** The title and subtitle a feed row shows for an `AccountFeedItem`. */
module FeedItemText {
  import opened Wrappers
  import Models
  import Text

  /**
   * `title`: the amount's text, or "N/A" when the item has no amount. The
   * amount's text comes from a currency formatter outside this model, so
   * it is the parameter `describe`.
   */
  function Title(item: Models.AccountFeedItem, describe: Models.CurrencyAndAmount -> string): (r: string)
    ensures item.amount.None? ==> r == "N/A"
    ensures item.amount.Some? ==> r == describe(item.amount.value)
  {
    match item.amount
    case Some(amount) => describe(amount)
    case None => "N/A"
  }

  /** When the formatter never writes "N/A" itself, "N/A" means exactly that the amount is missing. */
  lemma TitleShowsMissingAmount(item: Models.AccountFeedItem, describe: Models.CurrencyAndAmount -> string)
    requires forall amount :: describe(amount) != "N/A"
    ensures Title(item, describe) == "N/A" <==> item.amount.None?
  {
  }

  /**
   * `subtitle`: the parts present, joined by " - ". The only part is the
   * reference, so the subtitle is the reference, or empty without one, and
   * no other field of the item shows in it.
   */
  function SubtitleText(item: Models.AccountFeedItem): (r: string)
    ensures item.reference.Some? ==> r == item.reference.value
    ensures item.reference.None? ==> r == ""
  {
    Text.Join(if item.reference.Some? then [item.reference.value] else [], " - ")
  }

  /** `subtitle` as the source computes it: append each part present, then join. */
  method Subtitle(item: Models.AccountFeedItem) returns (r: string)
    ensures r == SubtitleText(item)
  {
    var infos: seq<string> := [];
    if item.reference.Some? {
      infos := infos + [item.reference.value];
    }
    r := Text.Join(infos, " - ");
  }
}
