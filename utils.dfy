/** lib/utils.ts: how an owner's wallet address and an author are shown. */
module Utils {
  import opened Text
  import opened Domain

  /** `formatAddress`: the first four characters, "...", then the last four characters.
      Both slices clamp, so an address shorter than four characters appears twice in full. */
  function FormatAddress(address: string): (r: string)
    ensures |address| >= 4 ==> r == address[..4] + "..." + address[|address| - 4..]
    ensures |address| >= 4 ==> |r| == 11
    ensures |address| < 4 ==> r == address + "..." + address
  {
    Slice(address, 0, 4) + "..." + Slice(address, -4, |address|)
  }

  /** `getDisplayName`: 'Anonymous' without an author, else the username when it is set and
      non-empty (JavaScript `||` treats null and '' alike), else the shortened wallet address. */
  function GetDisplayName(author: Option<Author>): (r: string)
    ensures author.None? ==> r == "Anonymous"
    ensures author.Some? && author.value.username.Some? && author.value.username.value != ""
            ==> r == author.value.username.value
    ensures author.Some? && (author.value.username.None? || author.value.username.value == "")
            ==> r == FormatAddress(author.value.wallet_address)
    ensures r != ""
  {
    match author
    case None => "Anonymous"
    case Some(a) =>
      if a.username.Some? && a.username.value != "" then a.username.value
      else FormatAddress(a.wallet_address)
  }
}
